/** Descending order by an integer key: what `order by ... desc` and the repo page's sort promise. */
module Sorting {

  ghost predicate SortedDesc<T(!new)>(s: seq<T>, key: T -> int) {
    forall i, j :: 0 <= i < j < |s| ==> key(s[i]) >= key(s[j])
  }

  /** Insert behind the elements that are not smaller, so that a sequence of insertions is a stable sort. */
  function InsertDesc<T(!new)>(s: seq<T>, x: T, key: T -> int): (r: seq<T>)
    requires SortedDesc(s, key)
    ensures SortedDesc(r, key)
    ensures multiset(r) == multiset(s) + multiset{x}
  {
    if s == [] || key(x) > key(s[0]) then
      [x] + s
    else
      var rest := InsertDesc(s[1..], x, key);
      BoundedByHead(s, x, rest, key);
      [s[0]] + rest
  }

  lemma BoundedByHead<T(!new)>(s: seq<T>, x: T, rest: seq<T>, key: T -> int)
    requires s != [] && SortedDesc(s, key) && key(x) <= key(s[0])
    requires multiset(rest) == multiset(s[1..]) + multiset{x}
    ensures forall i :: 0 <= i < |rest| ==> key(s[0]) >= key(rest[i])
    ensures multiset([s[0]] + rest) == multiset(s) + multiset{x}
  {
    forall i | 0 <= i < |rest|
      ensures key(s[0]) >= key(rest[i])
    {
      assert rest[i] in multiset(rest);
      assert rest[i] == x || rest[i] in s[1..];
    }
    assert s == [s[0]] + s[1..];
  }

  /** In descending order, a prefix holds nothing smaller than what follows it. */
  lemma PrefixIsLargest<T(!new)>(s: seq<T>, key: T -> int, k: nat, x: T, y: T)
    requires SortedDesc(s, key) && k <= |s|
    requires x in s[..k] && y in s[k..]
    ensures key(x) >= key(y)
  {
    var i :| 0 <= i < k && s[..k][i] == x;
    var j :| 0 <= j < |s| - k && s[k..][j] == y;
    assert s[i] == x && s[k + j] == y;
  }
}
