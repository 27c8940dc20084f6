/** Sequence operations with the meaning of the JavaScript array methods the
    services chain together: `filter`, `map`, `includes` and `slice(0, n)`. */
module Seqs {

  /** `xs.filter(p)`: the elements of `xs` that satisfy `p`, in their order. */
  function Filter<T(!new)>(p: T -> bool, xs: seq<T>): (r: seq<T>)
    ensures |r| <= |xs|
    ensures forall i :: 0 <= i < |r| ==> p(r[i])
    ensures forall x :: x in r <==> x in xs && p(x)
  {
    if xs == [] then []
    else if p(xs[0]) then
      assert xs == [xs[0]] + xs[1..];
      [xs[0]] + Filter(p, xs[1..])
    else
      assert xs == [xs[0]] + xs[1..];
      Filter(p, xs[1..])
  }

  /** `xs.map(f)`. */
  function Map<A, B>(f: A -> B, xs: seq<A>): (r: seq<B>)
    ensures |r| == |xs|
    ensures forall i :: 0 <= i < |xs| ==> r[i] == f(xs[i])
  {
    seq(|xs|, i requires 0 <= i < |xs| => f(xs[i]))
  }

  /** The predicate `x => ys.includes(x)`. */
  function InSeq<T(==)>(ys: seq<T>): T -> bool
  {
    x => x in ys
  }

  /** The predicate `x => x !== u`. */
  function NotEqual<T(==)>(u: T): T -> bool
  {
    x => x != u
  }

  /** `xs.filter(x => ys.includes(x))`: the entries of `xs` that also occur in `ys`. */
  function Common<T(==,!new)>(xs: seq<T>, ys: seq<T>): (r: seq<T>)
    ensures forall x :: x in r <==> x in xs && x in ys
  {
    Filter(InSeq(ys), xs)
  }

  /** `xs.filter(x => x !== u)`: every occurrence of `u` removed. */
  function Without<T(==,!new)>(xs: seq<T>, u: T): (r: seq<T>)
    ensures u !in r
    ensures forall x :: x != u ==> multiset(r)[x] == multiset(xs)[x]
  {
    FilterCount(NotEqual(u), xs);
    Filter(NotEqual(u), xs)
  }

  /** The end index that `slice(0, end)` uses on an array of length `len`:
      a negative `end` counts back from the end of the array. */
  function SliceEnd(len: nat, end: int): (k: nat)
    ensures k <= len
    ensures end >= 0 ==> k == (if end < len then end else len)
    ensures end < 0 ==> k == (if len + end < 0 then 0 else len + end)
  {
    if end < 0 then (if len + end < 0 then 0 else len + end)
    else if end < len then end
    else len
  }

  /** `xs.slice(0, end)`. */
  function SliceTo<T>(xs: seq<T>, end: int): (r: seq<T>)
    ensures r <= xs
    ensures end >= 0 ==> |r| == (if end < |xs| then end else |xs|)
    ensures end < 0 ==> |r| == (if |xs| + end < 0 then 0 else |xs| + end)
  {
    xs[..SliceEnd(|xs|, end)]
  }

  /** `a` is an order-preserving subsequence of `b` (greedy matching decides it). */
  predicate SubseqOf<T(==)>(a: seq<T>, b: seq<T>)
    decreases |b|
  {
    a == [] || (b != [] && if a[0] == b[0] then SubseqOf(a[1..], b[1..]) else SubseqOf(a, b[1..]))
  }

  /** Every element satisfies `p`. */
  ghost predicate All<T>(p: T -> bool, xs: seq<T>)
  {
    forall i :: 0 <= i < |xs| ==> p(xs[i])
  }

  /** The conjunction of two predicates, as successive `filter` calls apply them. */
  function Both<T>(p: T -> bool, q: T -> bool): T -> bool
  {
    x => p(x) && q(x)
  }

  // ---------------------------------------------------------------------------
  // Lemmas

  /** How many copies of each value `filter` keeps. */
  lemma {:induction false} FilterCount<T(!new)>(p: T -> bool, xs: seq<T>)
    ensures forall x :: multiset(Filter(p, xs))[x] == if p(x) then multiset(xs)[x] else 0
  {
    if xs != [] {
      FilterCount(p, xs[1..]);
      assert xs == [xs[0]] + xs[1..];
    }
  }

  /** `filter` distributes over concatenation. */
  lemma {:induction false} FilterAppend<T(!new)>(p: T -> bool, a: seq<T>, b: seq<T>)
    ensures Filter(p, a + b) == Filter(p, a) + Filter(p, b)
    decreases |a|
  {
    if a == [] {
      assert a + b == b;
    } else {
      var ab := a + b;
      assert ab[0] == a[0];
      assert ab[1..] == a[1..] + b;
      FilterAppend(p, a[1..], b);
    }
  }

  /** `filter` on a one-element list. */
  lemma FilterSingleton<T(!new)>(p: T -> bool, x: T)
    ensures Filter(p, [x]) == if p(x) then [x] else []
  {
    assert [x][1..] == [];
  }

  /** Two successive filters keep what the conjunction keeps. */
  lemma {:induction false} FilterFilter<T(!new)>(p: T -> bool, q: T -> bool, xs: seq<T>)
    ensures Filter(q, Filter(p, xs)) == Filter(Both(p, q), xs)
  {
    if xs != [] {
      FilterFilter(p, q, xs[1..]);
    }
  }

  /** A filter that rejects nothing is the identity. */
  lemma {:induction false} FilterKeepsAll<T(!new)>(p: T -> bool, xs: seq<T>)
    requires All(p, xs)
    ensures Filter(p, xs) == xs
  {
    if xs != [] {
      FilterKeepsAll(p, xs[1..]);
    }
  }

  /** A filter keeps every entry exactly when it rejects none. */
  lemma {:induction false} FilterKeepsAllIff<T(!new)>(p: T -> bool, xs: seq<T>)
    ensures |Filter(p, xs)| == |xs| <==> All(p, xs)
  {
    if xs != [] {
      FilterKeepsAllIff(p, xs[1..]);
      assert forall i :: 1 <= i < |xs| ==> xs[i] == xs[1..][i - 1];
      assert All(p, xs[1..]) ==> forall i :: 1 <= i < |xs| ==> p(xs[i]);
    }
  }

  /** Two predicates that agree on every entry filter alike. */
  lemma {:induction false} FilterExtensional<T(!new)>(p: T -> bool, q: T -> bool, xs: seq<T>)
    requires forall i :: 0 <= i < |xs| ==> p(xs[i]) == q(xs[i])
    ensures Filter(p, xs) == Filter(q, xs)
  {
    if xs != [] {
      assert forall i :: 0 <= i < |xs[1..]| ==> xs[1..][i] == xs[i + 1];
      FilterExtensional(p, q, xs[1..]);
    }
  }

  /** A filter keeps nothing exactly when it rejects every entry. */
  lemma FilterEmptyIff<T(!new)>(p: T -> bool, xs: seq<T>)
    ensures Filter(p, xs) == [] <==> forall x :: x in xs ==> !p(x)
  {
    var r := Filter(p, xs);
    if r != [] {
      assert r[0] in r;
    }
  }

  /** Filtering twice with the same predicate changes nothing more. */
  lemma FilterIdempotent<T(!new)>(p: T -> bool, xs: seq<T>)
    ensures Filter(p, Filter(p, xs)) == Filter(p, xs)
  {
    FilterKeepsAll(p, Filter(p, xs));
  }

  /** `filter` keeps the order of what it keeps. */
  lemma {:induction false} FilterIsSubseq<T(!new)>(p: T -> bool, xs: seq<T>)
    ensures SubseqOf(Filter(p, xs), xs)
  {
    if xs != [] {
      FilterIsSubseq(p, xs[1..]);
      if p(xs[0]) {
        assert Filter(p, xs)[1..] == Filter(p, xs[1..]);
      } else if Filter(p, xs) != [] {
        SubseqDropHead(Filter(p, xs), xs);
      }
    }
  }

  /** A subsequence of the tail is a subsequence of the whole. */
  lemma {:induction false} SubseqDropHead<T>(a: seq<T>, b: seq<T>)
    requires b != [] && SubseqOf(a, b[1..])
    ensures SubseqOf(a, b)
    decreases |b|, |a|
  {
    if a != [] && a[0] == b[0] {
      SubseqTail(a, b[1..]);
    }
  }

  /** Dropping the head of a subsequence keeps it a subsequence. */
  lemma {:induction false} SubseqTail<T>(a: seq<T>, b: seq<T>)
    requires a != [] && SubseqOf(a, b)
    ensures SubseqOf(a[1..], b)
    decreases |b|, |a|
  {
    assert b != [];
    if a[0] == b[0] {
      if a[1..] != [] {
        SubseqDropHead(a[1..], b);
      }
    } else {
      SubseqTail(a, b[1..]);
      if a[1..] != [] {
        SubseqDropHead(a[1..], b);
      }
    }
  }

  /** A prefix of a subsequence is a subsequence. */
  lemma {:induction false} PrefixOfSubseq<T>(a: seq<T>, b: seq<T>, c: seq<T>)
    requires a <= b && SubseqOf(b, c)
    ensures SubseqOf(a, c)
    decreases |c|
  {
    if a != [] {
      assert b != [] && c != [];
      if b[0] == c[0] {
        PrefixOfSubseq(a[1..], b[1..], c[1..]);
      } else {
        PrefixOfSubseq(a, b, c[1..]);
      }
    }
  }

  /** Removing `u` twice is removing it once. */
  lemma WithoutIdempotent<T(!new)>(xs: seq<T>, u: T)
    ensures Without(Without(xs, u), u) == Without(xs, u)
  {
    FilterIdempotent(NotEqual(u), xs);
  }

  /** Removing `u` from a list that ends in `u` removes that last entry too. */
  lemma WithoutAppended<T(!new)>(xs: seq<T>, u: T)
    ensures Without(xs + [u], u) == Without(xs, u)
  {
    FilterAppend(NotEqual(u), xs, [u]);
  }
}
