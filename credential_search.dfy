/**
 * What the credential screens share: the search predicate (the same expression appears in the
 * list screen and in the generator screen), the toggling of a member of a selection set, and
 * the selection of store employees by a predicate.
 */
module CredentialSearch {
  import opened EmployeeTypes
  import Seqs

  /** `s.includes(t)`: `t` occurs in `s` as a contiguous block (the empty string occurs everywhere). */
  predicate Contains(s: string, t: string)
  {
    |t| <= |s| && (s[..|t|] == t || Contains(s[1..], t))
  }

  lemma {:induction false} ContainsEmpty(s: string)
    ensures Contains(s, "")
  {
  }

  /** `t` occurs in `s` starting at index `i`. */
  predicate OccursAt(s: string, t: string, i: int)
  {
    0 <= i <= |s| - |t| && s[i..i + |t|] == t
  }

  /** `Contains` holds exactly when `t` starts at some index of `s`. */
  lemma {:induction false} ContainsAt(s: string, t: string)
    ensures Contains(s, t) <==> exists i :: OccursAt(s, t, i)
  {
    if |t| <= |s| && s[..|t|] != t {
      ContainsAt(s[1..], t);
      if exists i :: OccursAt(s, t, i) {
        var i :| OccursAt(s, t, i);
        assert s[0..|t|] == s[..|t|];
        assert OccursAt(s[1..], t, i - 1);
      }
      if exists i :: OccursAt(s[1..], t, i) {
        var i :| OccursAt(s[1..], t, i);
        assert OccursAt(s, t, i + 1);
      }
    } else if |t| <= |s| {
      assert OccursAt(s, t, 0);
    }
  }

  /**
   * The search: the lower-cased first name or last name contains the lower-cased search, or
   * the RUT contains the search as typed. `lower` is `String.prototype.toLowerCase`.
   */
  predicate MatchesSearch(e: Employee, search: string, lower: string -> string)
  {
    Contains(lower(e.firstName), lower(search))
    || Contains(lower(e.lastName), lower(search))
    || Contains(e.rut, search)
  }

  function SearchFilter(search: string, lower: string -> string): Employee -> bool
  {
    e => MatchesSearch(e, search, lower)
  }

  /** `employees.filter(...)` with the search. */
  function FilterEmployees(es: seq<Employee>, search: string, lower: string -> string): seq<Employee>
  {
    Seqs.Filter(es, SearchFilter(search, lower))
  }

  /**
   * An employee is listed iff it is in the store and matches the search; the listed employees
   * keep the store's order; the empty search lists everyone.
   */
  lemma FilterEmployeesSpec(es: seq<Employee>, search: string, lower: string -> string)
    ensures forall e :: e in FilterEmployees(es, search, lower) ==> e in es && MatchesSearch(e, search, lower)
    ensures forall e :: e in es && MatchesSearch(e, search, lower) ==> e in FilterEmployees(es, search, lower)
    ensures Seqs.IsSubsequence(FilterEmployees(es, search, lower), es)
    ensures search == "" ==> FilterEmployees(es, search, lower) == es
  {
    Seqs.FilterMembers(es, SearchFilter(search, lower));
    Seqs.FilterIsSubsequence(es, SearchFilter(search, lower));
    if search == "" {
      forall e | e in es
        ensures SearchFilter(search, lower)(e)
      {
        ContainsEmpty(e.rut);
      }
      Seqs.FilterKeepsAll(es, SearchFilter(search, lower));
    }
  }

  /** A set with `x` added if it was absent, removed if it was present. */
  function Toggled(s: set<string>, x: string): set<string>
  {
    if x in s then s - {x} else s + {x}
  }

  /** Toggling flips `x` and nothing else; toggling twice restores the set. */
  lemma ToggledSpec(s: set<string>, x: string)
    ensures x in Toggled(s, x) <==> x !in s
    ensures forall y :: y != x ==> (y in Toggled(s, x) <==> y in s)
    ensures Toggled(Toggled(s, x), x) == s
  {
  }

  /** The store employees whose key (id or department) is in the selection. */
  function Selected(es: seq<Employee>, key: Employee -> string, sel: set<string>): seq<Employee>
  {
    Seqs.Filter(es, e => key(e) in sel)
  }

  /** Exactly the selected employees, in store order. */
  lemma SelectedSpec(es: seq<Employee>, key: Employee -> string, sel: set<string>)
    ensures forall e :: e in Selected(es, key, sel) ==> e in es && key(e) in sel
    ensures forall e :: e in es && key(e) in sel ==> e in Selected(es, key, sel)
    ensures Seqs.IsSubsequence(Selected(es, key, sel), es)
  {
    Seqs.FilterMembers(es, e => key(e) in sel);
    Seqs.FilterIsSubsequence(es, e => key(e) in sel);
  }
}
