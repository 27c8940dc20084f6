/** The "sort by a numeric key, highest first, then keep the first `limit`"
    pipeline that every ranked listing uses. JavaScript's `Array.prototype.sort`
    is stable, so entries with equal keys keep their input order. */
module Ranking {
  import opened Seqs

  /** Non-increasing by `key`. */
  ghost predicate SortedDesc<T>(xs: seq<T>, key: T -> real)
  {
    forall i, j :: 0 <= i < j < |xs| ==> key(xs[i]) >= key(xs[j])
  }

  /** No entry of `xs` left out of `r` ranks above an entry kept in `r`
      (an entry listed twice in `xs` and once in `r` counts as left out once). */
  ghost predicate NoneDroppedAbove<T>(r: seq<T>, xs: seq<T>, key: T -> real)
  {
    forall x, i :: x in multiset(xs) - multiset(r) && 0 <= i < |r| ==> key(x) <= key(r[i])
  }

  /** The predicate "has key `k`". */
  function KeyIs<T>(key: T -> real, k: real): T -> bool
  {
    x => key(x) == k
  }

  /** Places `x` before the first entry whose key is not above its own. */
  function Insert<T>(x: T, s: seq<T>, key: T -> real): (r: seq<T>)
    ensures |r| == |s| + 1
    ensures multiset(r) == multiset(s) + multiset{x}
    decreases |s|
  {
    if s == [] || key(s[0]) <= key(x) then [x] + s
    else
      assert s == [s[0]] + s[1..];
      [s[0]] + Insert(x, s[1..], key)
  }

  /** Inserting keeps every key under a bound that `x` and all of `s` respect. */
  lemma {:induction false} InsertBound<T>(x: T, s: seq<T>, key: T -> real, b: real)
    requires key(x) <= b
    requires forall n :: 0 <= n < |s| ==> key(s[n]) <= b
    ensures forall m :: 0 <= m < |Insert(x, s, key)| ==> key(Insert(x, s, key)[m]) <= b
    decreases |s|
  {
    if s != [] && key(s[0]) > key(x) {
      InsertBound(x, s[1..], key, b);
    }
  }

  /** Inserting into a ranking yields a ranking. */
  lemma {:induction false} InsertSorted<T>(x: T, s: seq<T>, key: T -> real)
    requires SortedDesc(s, key)
    ensures SortedDesc(Insert(x, s, key), key)
    decreases |s|
  {
    if s != [] && key(s[0]) > key(x) {
      InsertSorted(x, s[1..], key);
      InsertBound(x, s[1..], key, key(s[0]));
    }
  }

  /** `xs.sort((a, b) => key(b) - key(a))`. */
  function SortDesc<T>(xs: seq<T>, key: T -> real): (r: seq<T>)
    ensures SortedDesc(r, key)
    ensures |r| == |xs|
    ensures multiset(r) == multiset(xs)
    decreases |xs|
  {
    if xs == [] then []
    else
      assert xs == [xs[0]] + xs[1..];
      InsertSorted(xs[0], SortDesc(xs[1..], key), key);
      Insert(xs[0], SortDesc(xs[1..], key), key)
  }

  /** `xs.sort(...).slice(0, limit)`: the `limit` highest-keyed entries. */
  function TopByKey<T>(xs: seq<T>, key: T -> real, limit: int): (r: seq<T>)
    ensures SortedDesc(r, key)
    ensures r <= SortDesc(xs, key)
    ensures multiset(r) <= multiset(xs)
    ensures forall i :: 0 <= i < |r| ==> r[i] in xs
    ensures limit >= 0 ==> |r| == if limit < |xs| then limit else |xs|
    ensures forall i, j :: 0 <= i < |r| <= j < |xs| ==> key(SortDesc(xs, key)[j]) <= key(r[i])
    ensures NoneDroppedAbove(r, xs, key)
  {
    var s := SortDesc(xs, key);
    var r := SliceTo(s, limit);
    PrefixOfRanking(r, s, key);
    SameElements(s, xs);
    r
  }

  /** A prefix of a ranking is a ranking drawn from it, and nothing after the
      prefix outranks anything in it. */
  lemma PrefixOfRanking<T>(r: seq<T>, s: seq<T>, key: T -> real)
    requires r <= s
    requires SortedDesc(s, key)
    ensures SortedDesc(r, key)
    ensures multiset(r) <= multiset(s)
    ensures forall i :: 0 <= i < |r| ==> r[i] in s
    ensures forall i, j :: 0 <= i < |r| <= j < |s| ==> key(s[j]) <= key(r[i])
    ensures NoneDroppedAbove(r, s, key)
  {
    var rest := s[|r|..];
    assert s == r + rest;
    assert multiset(s) == multiset(r) + multiset(rest);
    RestDominated(r, rest, key);
  }

  /** What follows a prefix of a ranking ranks no higher than the prefix. */
  lemma RestDominated<T>(r: seq<T>, rest: seq<T>, key: T -> real)
    requires SortedDesc(r + rest, key)
    ensures NoneDroppedAbove(r, r + rest, key)
  {
    var s := r + rest;
    assert multiset(s) - multiset(r) == multiset(rest);
    forall x, i | x in multiset(rest) && 0 <= i < |r|
      ensures key(x) <= key(r[i])
    {
      var j :| 0 <= j < |rest| && rest[j] == x;
      assert s[|r| + j] == x && s[i] == r[i];
    }
  }

  /** A prefix as long as the whole is the whole. */
  lemma FullPrefix<T>(r: seq<T>, s: seq<T>)
    requires r <= s && |r| == |s|
    ensures multiset(r) == multiset(s)
  {
    assert r == s;
  }

  /** Two sequences with the same multiset have the same elements. */
  lemma SameElements<T>(s: seq<T>, xs: seq<T>)
    requires multiset(s) == multiset(xs)
    ensures forall x :: x in s ==> x in xs
  {
    forall x | x in s
      ensures x in xs
    {
      assert x in multiset(s);
    }
  }

  // ---------------------------------------------------------------------------
  // Stability

  /** Inserting `x` puts it in front of every entry with the same key. */
  lemma {:induction false} InsertStable<T(!new)>(x: T, s: seq<T>, key: T -> real, k: real)
    ensures Filter(KeyIs(key, k), Insert(x, s, key))
         == (if key(x) == k then [x] else []) + Filter(KeyIs(key, k), s)
    decreases |s|
  {
    var p := KeyIs(key, k);
    FilterSingleton(p, x);
    if s == [] || key(s[0]) <= key(x) {
      FilterAppend(p, [x], s);
    } else {
      var tail := s[1..];
      var rest := Insert(x, tail, key);
      assert Insert(x, s, key) == [s[0]] + rest;
      InsertStable(x, tail, key, k);
      FilterAppend(p, [s[0]], rest);
      assert s == [s[0]] + tail;
      FilterAppend(p, [s[0]], tail);
      var head := Filter(p, [s[0]]);
      FilterSingleton(p, s[0]);
      assert key(x) == k ==> head == [];
    }
  }

  /** The sort is stable: the entries sharing any one key appear in the output
      in exactly the order they had in the input. */
  lemma {:induction false} SortStable<T(!new)>(xs: seq<T>, key: T -> real, k: real)
    ensures Filter(KeyIs(key, k), SortDesc(xs, key)) == Filter(KeyIs(key, k), xs)
    decreases |xs|
  {
    if xs != [] {
      SortStable(xs[1..], key, k);
      InsertStable(xs[0], SortDesc(xs[1..], key), key, k);
      FilterAppend(KeyIs(key, k), [xs[0]], xs[1..]);
      assert xs == [xs[0]] + xs[1..];
    }
  }

  /** Filtering a prefix yields a prefix of the filtered whole. */
  lemma FilterPrefix<T(!new)>(p: T -> bool, a: seq<T>, b: seq<T>)
    requires a <= b
    ensures Filter(p, a) <= Filter(p, b)
  {
    assert b == a + b[|a|..];
    FilterAppend(p, a, b[|a|..]);
  }

  /** After truncation, the kept entries of any one key are the first ones of
      that key in input order. */
  lemma TopByKeyStable<T(!new)>(xs: seq<T>, key: T -> real, limit: int, k: real)
    ensures Filter(KeyIs(key, k), TopByKey(xs, key, limit)) <= Filter(KeyIs(key, k), xs)
  {
    SortStable(xs, key, k);
    FilterPrefix(KeyIs(key, k), TopByKey(xs, key, limit), SortDesc(xs, key));
  }
}
