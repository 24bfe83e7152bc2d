/** Order-preserving filtering of sequences: the model of JavaScript's
    `Array.prototype.filter`, which every removal and derived view of the
    notification centre is built on. */
module Seqs {

  /** The elements of `xs` that satisfy `p`, in their original order. */
  function Filter<T(!new)>(xs: seq<T>, p: T -> bool): (r: seq<T>)
    ensures |r| <= |xs|
    ensures forall k :: 0 <= k < |r| ==> p(r[k])
  {
    if xs == [] then []
    else if p(xs[0]) then [xs[0]] + Filter(xs[1..], p)
    else Filter(xs[1..], p)
  }

  /** Filtering keeps every satisfying element with its multiplicity and
      drops every other one. */
  lemma {:induction false} FilterMultiset<T(!new)>(xs: seq<T>, p: T -> bool)
    ensures forall x :: multiset(Filter(xs, p))[x] == if p(x) then multiset(xs)[x] else 0
  {
    if xs != [] {
      FilterMultiset(xs[1..], p);
      assert xs == [xs[0]] + xs[1..];
      assert multiset(xs) == multiset{xs[0]} + multiset(xs[1..]);
    }
  }

  /** Filtering keeps all of `xs` exactly when every element satisfies `p`,
      and keeps nothing exactly when no element does. */
  lemma {:induction false} FilterExtremes<T(!new)>(xs: seq<T>, p: T -> bool)
    ensures |Filter(xs, p)| == |xs| <==> (forall k :: 0 <= k < |xs| ==> p(xs[k]))
    ensures |Filter(xs, p)| == 0 <==> (forall k :: 0 <= k < |xs| ==> !p(xs[k]))
  {
    if xs != [] {
      FilterExtremes(xs[1..], p);
      assert forall k :: 1 <= k < |xs| ==> xs[k] == xs[1..][k - 1];
    }
  }

  /** `idx` lists, in strictly increasing order, positions of `b` whose
      elements spell out `a`. */
  ghost predicate Embeds<T>(idx: seq<nat>, a: seq<T>, b: seq<T>) {
    && |idx| == |a|
    && (forall k :: 0 <= k < |idx| ==> idx[k] < |b| && b[idx[k]] == a[k])
    && (forall k, l :: 0 <= k < l < |idx| ==> idx[k] < idx[l])
  }

  /** `a` is obtained from `b` by deleting elements: relative order is kept. */
  ghost predicate IsSubsequence<T>(a: seq<T>, b: seq<T>) {
    exists idx :: Embeds(idx, a, b)
  }

  /** Filtering deletes elements and never reorders the survivors. */
  lemma {:induction false} FilterIsSubsequence<T(!new)>(xs: seq<T>, p: T -> bool)
    ensures IsSubsequence(Filter(xs, p), xs)
  {
    var idx := FilterPositions(xs, p);
  }

  /** The positions of `xs` that `Filter(xs, p)` keeps. */
  lemma {:induction false} FilterPositions<T(!new)>(xs: seq<T>, p: T -> bool) returns (idx: seq<nat>)
    ensures Embeds(idx, Filter(xs, p), xs)
  {
    if xs == [] {
      idx := [];
    } else {
      var tail := FilterPositions(xs[1..], p);
      var shifted := EmbedsInTail(tail, Filter(xs[1..], p), xs);
      if p(xs[0]) {
        idx := EmbedsWithHead(shifted, Filter(xs[1..], p), xs);
      } else {
        idx := shifted;
      }
    }
  }

  /** An embedding into the tail of `b`, shifted by one, embeds into `b`. */
  lemma EmbedsInTail<T>(tail: seq<nat>, a: seq<T>, b: seq<T>) returns (idx: seq<nat>)
    requires |b| > 0 && Embeds(tail, a, b[1..])
    ensures Embeds(idx, a, b)
    ensures forall k :: 0 <= k < |idx| ==> idx[k] > 0
  {
    idx := seq(|tail|, k requires 0 <= k < |tail| => tail[k] + 1);
    forall k | 0 <= k < |idx|
      ensures idx[k] < |b| && b[idx[k]] == a[k]
    {
      assert b[idx[k]] == b[1..][tail[k]];
    }
  }

  /** An embedding that avoids position 0, extended by 0, embeds `b`'s
      first element followed by `a`. */
  lemma EmbedsWithHead<T>(idx0: seq<nat>, a: seq<T>, b: seq<T>) returns (idx: seq<nat>)
    requires |b| > 0 && Embeds(idx0, a, b)
    requires forall k :: 0 <= k < |idx0| ==> idx0[k] > 0
    ensures Embeds(idx, [b[0]] + a, b)
  {
    idx := [0] + idx0;
    forall k | 0 < k < |idx|
      ensures idx[k] == idx0[k - 1] && ([b[0]] + a)[k] == a[k - 1]
    {
    }
  }

  /** Filtering a concatenation filters each part. */
  lemma {:induction false} FilterAppend<T(!new)>(a: seq<T>, b: seq<T>, p: T -> bool)
    ensures Filter(a + b, p) == Filter(a, p) + Filter(b, p)
  {
    if a == [] {
      assert a + b == b;
    } else {
      assert (a + b)[0] == a[0];
      assert (a + b)[1..] == a[1..] + b;
      FilterAppend(a[1..], b, p);
    }
  }

  /** When every element satisfies `p`, filtering changes nothing. */
  lemma {:induction false} FilterKeepsAll<T(!new)>(xs: seq<T>, p: T -> bool)
    ensures (forall k :: 0 <= k < |xs| ==> p(xs[k])) ==> Filter(xs, p) == xs
  {
    if xs != [] {
      FilterKeepsAll(xs[1..], p);
      assert forall k :: 1 <= k < |xs| ==> xs[k] == xs[1..][k - 1];
    }
  }

  /** Filtering by `p` and then by `q` is filtering once by their conjunction `pq`. */
  lemma {:induction false} FilterFilter<T(!new)>(xs: seq<T>, p: T -> bool, q: T -> bool, pq: T -> bool)
    requires forall x :: pq(x) == (p(x) && q(x))
    ensures Filter(Filter(xs, p), q) == Filter(xs, pq)
  {
    if xs != [] {
      FilterFilter(xs[1..], p, q, pq);
      if p(xs[0]) {
        assert Filter(xs, p)[1..] == Filter(xs[1..], p);
      }
    }
  }

  /** Filtering twice by the same predicate is filtering once. */
  lemma FilterIdempotent<T(!new)>(xs: seq<T>, p: T -> bool)
    ensures Filter(Filter(xs, p), p) == Filter(xs, p)
  {
    FilterKeepsAll(Filter(xs, p), p);
  }

  /** If, position by position, `ys` satisfies `p` only where `xs` satisfies
      `q`, then `ys` has no more `p`-elements than `xs` has `q`-elements. */
  lemma {:induction false} FilterCountPointwise<T(!new)>(xs: seq<T>, ys: seq<T>, q: T -> bool, p: T -> bool)
    requires |xs| == |ys|
    requires forall k :: 0 <= k < |ys| ==> p(ys[k]) ==> q(xs[k])
    ensures |Filter(ys, p)| <= |Filter(xs, q)|
  {
    if xs != [] {
      assert forall k :: 1 <= k < |ys| ==> ys[k] == ys[1..][k - 1] && xs[k] == xs[1..][k - 1];
      FilterCountPointwise(xs[1..], ys[1..], q, p);
    }
  }

  /** A stronger predicate selects no more elements, and strictly fewer when
      some element satisfies only the weaker one. */
  lemma {:induction false} FilterCountSubsumed<T(!new)>(xs: seq<T>, p: T -> bool, q: T -> bool)
    requires forall x :: p(x) ==> q(x)
    ensures |Filter(xs, p)| <= |Filter(xs, q)|
    ensures (exists k :: 0 <= k < |xs| && q(xs[k]) && !p(xs[k])) ==> |Filter(xs, p)| < |Filter(xs, q)|
  {
    if xs != [] {
      FilterCountSubsumed(xs[1..], p, q);
      assert forall k :: 1 <= k < |xs| ==> xs[k] == xs[1..][k - 1];
    }
  }

  /** Deleting elements by any `q` cannot add elements satisfying `p`. */
  lemma {:induction false} FilterCountShrinks<T(!new)>(xs: seq<T>, q: T -> bool, p: T -> bool)
    ensures |Filter(Filter(xs, q), p)| <= |Filter(xs, p)|
  {
    if xs != [] {
      FilterCountShrinks(xs[1..], q, p);
      if q(xs[0]) {
        assert Filter(xs, q)[1..] == Filter(xs[1..], q);
      }
    }
  }
}
