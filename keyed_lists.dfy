/**
 * The two list rewrites every store action is built from: a `map` that spreads a patch
 * over each entry whose key is `id`, and a `filter` that drops each entry whose key is `id`.
 * Each store instantiates them with its record's key field and merge function.
 */
module KeyedLists {
  import opened Wrappers
  import Seqs

  /** `s.map(x => key(x) === id ? { ...x, ...patch } : x)`, with the spread written as `merge`. */
  function MergeWhere<T, P>(s: seq<T>, key: T -> string, id: string, merge: (T, P) -> T, patch: P): (r: seq<T>)
    ensures |r| == |s|
  {
    if s == [] then []
    else [if key(s[0]) == id then merge(s[0], patch) else s[0]] + MergeWhere(s[1..], key, id, merge, patch)
  }

  /** `s.filter(x => key(x) !== id)`. */
  function RemoveWhere<T>(s: seq<T>, key: T -> string, id: string): (r: seq<T>)
    ensures |r| <= |s|
  {
    if s == [] then []
    else (if key(s[0]) == id then [] else [s[0]]) + RemoveWhere(s[1..], key, id)
  }

  /** Position by position: a matching entry receives the patch, every other entry is untouched. */
  lemma {:induction false} MergeWhereAt<T, P>(s: seq<T>, key: T -> string, id: string, merge: (T, P) -> T, patch: P)
    ensures var r := MergeWhere(s, key, id, merge, patch);
      forall i :: 0 <= i < |s| ==> r[i] == if key(s[i]) == id then merge(s[i], patch) else s[i]
  {
    if s != [] {
      MergeWhereAt(s[1..], key, id, merge, patch);
    }
  }

  /** Patching a key that no entry has leaves the list identical. */
  lemma {:induction false} MergeWhereAbsent<T, P>(s: seq<T>, key: T -> string, id: string, merge: (T, P) -> T, patch: P)
    requires forall i :: 0 <= i < |s| ==> key(s[i]) != id
    ensures MergeWhere(s, key, id, merge, patch) == s
  {
    if s != [] {
      MergeWhereAbsent(s[1..], key, id, merge, patch);
      assert [s[0]] + s[1..] == s;
    }
  }

  /** What is left has no entry with key `id`, and is exactly the other entries, in their order. */
  lemma {:induction false} RemoveWhereSpec<T>(s: seq<T>, key: T -> string, id: string)
    ensures var r := RemoveWhere(s, key, id);
      && (forall i :: 0 <= i < |r| ==> key(r[i]) != id)
      && r == Seqs.Filter(s, x => key(x) != id)
  {
    if s != [] {
      RemoveWhereSpec(s[1..], key, id);
    }
  }

  /** The entries left keep their relative order and their multiplicities; matching entries all go. */
  lemma RemoveWhereKeepsOthers<T>(s: seq<T>, key: T -> string, id: string)
    ensures var r := RemoveWhere(s, key, id);
      && Seqs.IsSubsequence(r, s)
      && forall x :: multiset(r)[x] == if key(x) == id then 0 else multiset(s)[x]
  {
    RemoveWhereSpec(s, key, id);
    Seqs.FilterIsSubsequence(s, x => key(x) != id);
    Seqs.FilterMultiset(s, x => key(x) != id);
  }

  /** Removing a key that no entry has leaves the list identical. */
  lemma {:induction false} RemoveWhereAbsent<T>(s: seq<T>, key: T -> string, id: string)
    requires forall i :: 0 <= i < |s| ==> key(s[i]) != id
    ensures RemoveWhere(s, key, id) == s
  {
    if s != [] {
      RemoveWhereAbsent(s[1..], key, id);
      assert [s[0]] + s[1..] == s;
    }
  }

  /** Deleting twice is deleting once. */
  lemma RemoveWhereIdempotent<T>(s: seq<T>, key: T -> string, id: string)
    ensures RemoveWhere(RemoveWhere(s, key, id), key, id) == RemoveWhere(s, key, id)
  {
    RemoveWhereSpec(s, key, id);
    RemoveWhereAbsent(RemoveWhere(s, key, id), key, id);
  }

  /**
   * Patching the entries with key `id` and then deleting key `id` is the same as deleting directly,
   * provided the patch does not move a matching entry to another key (a patch without `id`).
   */
  lemma {:induction false} RemoveAfterMerge<T, P>(s: seq<T>, key: T -> string, id: string, merge: (T, P) -> T, patch: P)
    requires forall x :: key(x) == id ==> key(merge(x, patch)) == id
    ensures RemoveWhere(MergeWhere(s, key, id, merge, patch), key, id) == RemoveWhere(s, key, id)
  {
    if s != [] {
      RemoveAfterMerge(s[1..], key, id, merge, patch);
      var m := MergeWhere(s, key, id, merge, patch);
      assert m[0] == (if key(s[0]) == id then merge(s[0], patch) else s[0]);
      assert m[1..] == MergeWhere(s[1..], key, id, merge, patch);
    }
  }

  /** `s.find(x => key(x) === id)`: the first entry whose key is `id`, if any. */
  function FindWhere<T>(s: seq<T>, key: T -> string, id: string): (r: Option<T>)
    ensures r.None? <==> forall i :: 0 <= i < |s| ==> key(s[i]) != id
    ensures r.Some? ==> exists i :: 0 <= i < |s| && s[i] == r.value && key(s[i]) == id
  {
    if s == [] then None
    else if key(s[0]) == id then Some(s[0])
    else
      var rest := FindWhere(s[1..], key, id);
      assert forall i :: 1 <= i < |s| ==> s[i] == s[1..][i - 1];
      rest
  }

  /** The entry found is the first one with that key. */
  lemma {:induction false} FindWhereFirst<T>(s: seq<T>, key: T -> string, id: string, i: nat)
    requires i < |s| && key(s[i]) == id && forall j :: 0 <= j < i ==> key(s[j]) != id
    ensures FindWhere(s, key, id) == Some(s[i])
  {
    if i > 0 {
      FindWhereFirst(s[1..], key, id, i - 1);
    }
  }

  /**
   * After patching key `id`, finding key `id` gives the patched version of the entry found
   * before, provided the patch keeps a matching entry's key.
   */
  lemma {:induction false} FindAfterMerge<T, P>(s: seq<T>, key: T -> string, id: string, merge: (T, P) -> T, patch: P)
    requires forall x :: key(x) == id ==> key(merge(x, patch)) == id
    ensures var found := FindWhere(s, key, id);
      FindWhere(MergeWhere(s, key, id, merge, patch), key, id) == if found.Some? then Some(merge(found.value, patch)) else None
  {
    if s != [] {
      var m := MergeWhere(s, key, id, merge, patch);
      assert m[0] == (if key(s[0]) == id then merge(s[0], patch) else s[0]);
      assert m[1..] == MergeWhere(s[1..], key, id, merge, patch);
      if key(s[0]) != id {
        FindAfterMerge(s[1..], key, id, merge, patch);
      }
    }
  }
}
