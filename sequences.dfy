/**
 * Order-preserving filtering and a stable newest-first ordering, as the
 * store applies them (`.gte(...)`, `.order(..., { ascending: false })`) and as
 * `Array.prototype.sort` with a `b - a` comparator does.
 */
module Sequences {

  /** Every element is at least as recent as every element after it. */
  ghost predicate NewestFirst<T>(s: seq<T>, key: T -> int) {
    forall i, j :: 0 <= i < j < |s| ==> key(s[i]) >= key(s[j])
  }

  /** The elements of `s` that satisfy `keep`, in their original order. */
  function Filter<T(!new)>(s: seq<T>, keep: T -> bool): (r: seq<T>)
    decreases |s|
    ensures |r| <= |s|
    ensures forall x :: x in r <==> x in s && keep(x)
    ensures forall x :: multiset(r)[x] == if keep(x) then multiset(s)[x] else 0
  {
    if s == [] then []
    else
      var rest := Filter(s[1..], keep);
      assert s == [s[0]] + s[1..];
      if keep(s[0]) then [s[0]] + rest else rest
  }

  /**
   * Inserts `x` before the first element strictly older than it, so that among
   * equal keys earlier insertions stay first (a stable sort).
   */
  function InsertNewestFirst<T>(s: seq<T>, x: T, key: T -> int): (r: seq<T>)
    requires NewestFirst(s, key)
    decreases |s|
    ensures NewestFirst(r, key)
    ensures |r| == |s| + 1
    ensures multiset(r) == multiset(s) + multiset{x}
  {
    if s == [] || key(s[0]) < key(x) then [x] + s
    else
      var rest := InsertNewestFirst(s[1..], x, key);
      assert s == [s[0]] + s[1..];
      HeadNewestOf(s[0], s[1..], x, rest, key);
      [s[0]] + rest
  }

  /** An element no older than `x` and than all of `s` is no older than any element of a reordering of `s + [x]`. */
  lemma HeadNewestOf<T>(h: T, s: seq<T>, x: T, r: seq<T>, key: T -> int)
    requires key(h) >= key(x)
    requires forall i :: 0 <= i < |s| ==> key(h) >= key(s[i])
    requires multiset(r) == multiset(s) + multiset{x}
    ensures forall i :: 0 <= i < |r| ==> key(h) >= key(r[i])
  {
    forall i | 0 <= i < |r| ensures key(h) >= key(r[i]) {
      assert r[i] in multiset(r);
      if r[i] != x {
        assert r[i] in multiset(s);
        var j :| 0 <= j < |s| && s[j] == r[i];
      }
    }
  }

  /** `s` reordered newest first; ties keep their original order. */
  function SortNewestFirst<T>(s: seq<T>, key: T -> int): (r: seq<T>)
    decreases |s|
    ensures NewestFirst(r, key)
    ensures multiset(r) == multiset(s)
  {
    if s == [] then []
    else
      assert s == s[..|s| - 1] + [s[|s| - 1]];
      InsertNewestFirst(SortNewestFirst(s[..|s| - 1], key), s[|s| - 1], key)
  }
}
