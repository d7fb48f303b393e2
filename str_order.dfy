/**
 * The order `Array.prototype.sort()` uses on strings without a comparator (character by
 * character, a proper prefix first), and the sorted list of the distinct values of a list,
 * which is what `Array.from(new Set(xs)).sort()` yields.
 */
module StrOrder {

  /** `a` sorts strictly before `b`. */
  predicate Less(a: string, b: string)
  {
    if |a| == 0 then |b| > 0
    else if |b| == 0 then false
    else if a[0] != b[0] then a[0] < b[0]
    else Less(a[1..], b[1..])
  }

  lemma {:induction false} LessIrreflexive(a: string)
    ensures !Less(a, a)
  {
    if |a| > 0 {
      LessIrreflexive(a[1..]);
    }
  }

  lemma {:induction false} LessTransitive(a: string, b: string, c: string)
    requires Less(a, b) && Less(b, c)
    ensures Less(a, c)
  {
    if |a| > 0 && a[0] == b[0] && b[0] == c[0] {
      LessTransitive(a[1..], b[1..], c[1..]);
    }
  }

  /** Any two different strings are ordered one way or the other. */
  lemma {:induction false} LessTotal(a: string, b: string)
    requires a != b
    ensures Less(a, b) || Less(b, a)
  {
    if |a| > 0 && |b| > 0 && a[0] == b[0] {
      assert a == [a[0]] + a[1..] && b == [b[0]] + b[1..];
      LessTotal(a[1..], b[1..]);
    }
  }

  lemma LessAsymmetric(a: string, b: string)
    requires Less(a, b)
    ensures !Less(b, a)
  {
    if Less(b, a) {
      LessTransitive(a, b, a);
      LessIrreflexive(a);
    }
  }

  /** Strictly increasing, hence without duplicates. */
  predicate StrictlySorted(s: seq<string>)
  {
    forall i, j :: 0 <= i < j < |s| ==> Less(s[i], s[j])
  }

  /** Inserts `x` into a strictly sorted list unless it is already there. */
  function Insert(x: string, s: seq<string>): seq<string>
  {
    if |s| == 0 then [x]
    else if x == s[0] then s
    else if Less(x, s[0]) then [x] + s
    else [s[0]] + Insert(x, s[1..])
  }

  lemma {:induction false} InsertSpec(x: string, s: seq<string>)
    requires StrictlySorted(s)
    ensures StrictlySorted(Insert(x, s))
    ensures x in Insert(x, s)
    ensures forall y :: y in Insert(x, s) ==> y in s || y == x
    ensures forall y :: y in s ==> y in Insert(x, s)
  {
    if |s| > 0 && x != s[0] && !Less(x, s[0]) {
      LessTotal(x, s[0]);
      InsertSpec(x, s[1..]);
      var r := Insert(x, s[1..]);
      assert forall y :: y in r ==> y in s[1..] || y == x;
      forall i, j | 0 <= i < j < |[s[0]] + r|
        ensures Less(([s[0]] + r)[i], ([s[0]] + r)[j])
      {
        if i == 0 {
          var y := r[j - 1];
          assert y in r;
          if y != x {
            var k :| 0 <= k < |s[1..]| && s[1..][k] == y;
            assert s[k + 1] == y;
          }
        }
      }
    } else if |s| > 0 && x != s[0] {
      forall i, j | 0 <= i < j < |[x] + s|
        ensures Less(([x] + s)[i], ([x] + s)[j])
      {
        if i == 0 && j > 1 {
          LessTransitive(x, s[0], s[j - 1]);
        }
      }
    }
  }

  /** The distinct values of `s`, sorted. */
  function SortDistinct(s: seq<string>): seq<string>
  {
    if |s| == 0 then [] else Insert(s[|s| - 1], SortDistinct(s[..|s| - 1]))
  }

  /** The result is strictly sorted (so it has no duplicates) and holds exactly the values of `s`. */
  lemma {:induction false} SortDistinctSpec(s: seq<string>)
    ensures StrictlySorted(SortDistinct(s))
    ensures forall x :: x in SortDistinct(s) <==> x in s
  {
    if |s| > 0 {
      var init := s[..|s| - 1];
      SortDistinctSpec(init);
      InsertSpec(s[|s| - 1], SortDistinct(init));
      assert s == init + [s[|s| - 1]];
      assert forall x :: x in s <==> x in init || x == s[|s| - 1];
    }
  }

  /** Two lists with the same members are empty together. */
  lemma SameMembersBothEmpty<T>(a: seq<T>, b: seq<T>)
    requires forall x :: x in a <==> x in b
    ensures |a| == 0 <==> |b| == 0
  {
    if |a| > 0 {
      assert a[0] in b;
    }
    if |b| > 0 {
      assert b[0] in a;
    }
  }

  /** A strictly sorted list is determined by its values: any sort of the distinct values gives the same list. */
  lemma {:induction false} StrictlySortedUnique(a: seq<string>, b: seq<string>)
    requires StrictlySorted(a) && StrictlySorted(b)
    requires forall x :: x in a <==> x in b
    ensures a == b
  {
    SameMembersBothEmpty(a, b);
    if |a| > 0 {
      assert a[0] in b && b[0] in a;
      var k :| 0 <= k < |b| && b[k] == a[0];
      var m :| 0 <= m < |a| && a[m] == b[0];
      if a[0] != b[0] {
        LessAsymmetric(b[0], b[k]);
        assert false;
      }
      forall x
        ensures x in a[1..] <==> x in b[1..]
      {
        if x in a[1..] {
          var i :| 1 <= i < |a| && a[i] == x;
          if x == a[0] {
            LessIrreflexive(x);
            assert false;
          }
          assert x in b;
        }
        if x in b[1..] {
          var i :| 1 <= i < |b| && b[i] == x;
          if x == b[0] {
            LessIrreflexive(x);
            assert false;
          }
          assert x in a;
        }
      }
      StrictlySortedUnique(a[1..], b[1..]);
      assert a == [a[0]] + a[1..] && b == [b[0]] + b[1..];
    }
  }
}
