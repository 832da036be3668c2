/** Order-preserving selection, summation and prefixes over sequences: the
    `filter`, `reduce` and `slice(0, n)` the dashboard applies to its product
    list. */
module Seqs {

  /** The elements of `s` that satisfy `p`, in their original order. The
      recursion peels the last element, so each step appends at most one
      element, exactly as a left-to-right scan does. */
  function Filter<T>(p: T -> bool, s: seq<T>): (r: seq<T>)
    ensures |r| <= |s|
    ensures forall i :: 0 <= i < |r| ==> r[i] in s && p(r[i])
    ensures forall i :: 0 <= i < |s| && p(s[i]) ==> s[i] in r
    decreases |s|
  {
    if |s| == 0 then []
    else
      var init := s[..|s| - 1];
      var last := s[|s| - 1];
      assert s == init + [last];
      Filter(p, init) + (if p(last) then [last] else [])
  }

  /** The positions of `s` whose element satisfies `p`, in increasing order. */
  function KeptIndices<T>(p: T -> bool, s: seq<T>): seq<nat>
    decreases |s|
  {
    if |s| == 0 then []
    else KeptIndices(p, s[..|s| - 1]) + (if p(s[|s| - 1]) then [|s| - 1] else [])
  }

  /** `idx` picks the elements of `r` out of `s` at strictly increasing positions. */
  ghost predicate IsEmbedding<T>(r: seq<T>, s: seq<T>, idx: seq<nat>) {
    && |idx| == |r|
    && (forall k :: 0 <= k < |idx| ==> idx[k] < |s| && s[idx[k]] == r[k])
    && (forall k, l :: 0 <= k < l < |idx| ==> idx[k] < idx[l])
  }

  /** `r` is an order-preserving subsequence of `s`. */
  ghost predicate IsSubsequence<T>(r: seq<T>, s: seq<T>) {
    exists idx :: IsEmbedding(r, s, idx)
  }

  /** The kept positions are in range, strictly increasing, one per kept element. */
  lemma {:induction false} KeptIndicesShape<T>(p: T -> bool, s: seq<T>)
    ensures |KeptIndices(p, s)| == |Filter(p, s)|
    ensures forall k :: 0 <= k < |KeptIndices(p, s)| ==> KeptIndices(p, s)[k] < |s|
    ensures forall k, l :: 0 <= k < l < |KeptIndices(p, s)| ==> KeptIndices(p, s)[k] < KeptIndices(p, s)[l]
    decreases |s|
  {
    if |s| > 0 {
      var n := |s| - 1;
      KeptIndicesShape(p, s[..n]);
      var i0 := KeptIndices(p, s[..n]);
      var idx := KeptIndices(p, s);
      assert idx == i0 + (if p(s[n]) then [n] else []);
      forall k, l | 0 <= k < l < |idx|
        ensures idx[k] < idx[l]
      {
        if l >= |i0| {
          assert idx[k] == i0[k];
        }
      }
    }
  }

  /** Each kept position holds the corresponding element of the filtered sequence. */
  lemma {:induction false} KeptIndicesPick<T>(p: T -> bool, s: seq<T>)
    ensures |KeptIndices(p, s)| == |Filter(p, s)|
    ensures forall k :: 0 <= k < |KeptIndices(p, s)| ==>
      KeptIndices(p, s)[k] < |s| && s[KeptIndices(p, s)[k]] == Filter(p, s)[k]
    decreases |s|
  {
    KeptIndicesShape(p, s);
    if |s| > 0 {
      var n := |s| - 1;
      var init := s[..n];
      KeptIndicesPick(p, init);
      KeptIndicesShape(p, init);
      var r0, i0 := Filter(p, init), KeptIndices(p, init);
      var r, idx := Filter(p, s), KeptIndices(p, s);
      assert r == r0 + (if p(s[n]) then [s[n]] else []);
      assert idx == i0 + (if p(s[n]) then [n] else []);
      forall k | 0 <= k < |idx|
        ensures s[idx[k]] == r[k]
      {
        if k < |i0| {
          assert idx[k] == i0[k] && r[k] == r0[k];
          assert s[i0[k]] == init[i0[k]];
        }
      }
    }
  }

  /** A position is kept exactly when its element satisfies `p`. */
  lemma {:induction false} KeptIndicesExact<T>(p: T -> bool, s: seq<T>)
    ensures forall j :: 0 <= j < |s| ==> (j in KeptIndices(p, s) <==> p(s[j]))
    decreases |s|
  {
    if |s| > 0 {
      var n := |s| - 1;
      var init := s[..n];
      KeptIndicesExact(p, init);
      KeptIndicesShape(p, init);
      var i0 := KeptIndices(p, init);
      var idx := KeptIndices(p, s);
      assert idx == i0 + (if p(s[n]) then [n] else []);
      assert n !in i0;
      forall j | 0 <= j < |s|
        ensures j in idx <==> p(s[j])
      {
        if j < n {
          assert s[j] == init[j];
          assert j in idx <==> j in i0;
        }
      }
    }
  }

  /** Filter keeps exactly the positions that satisfy `p`, in order. */
  lemma FilterEmbedding<T>(p: T -> bool, s: seq<T>)
    ensures IsEmbedding(Filter(p, s), s, KeptIndices(p, s))
    ensures forall j :: 0 <= j < |s| ==> (j in KeptIndices(p, s) <==> p(s[j]))
  {
    KeptIndicesShape(p, s);
    KeptIndicesPick(p, s);
    KeptIndicesExact(p, s);
  }

  /** `r` consists of exactly the elements of `s` that satisfy `keep`, in
      their original order: an embedding whose positions are precisely the
      positions where `keep` holds. */
  ghost predicate IsSelection<T>(r: seq<T>, s: seq<T>, keep: T -> bool) {
    exists idx :: IsEmbedding(r, s, idx) && forall j :: 0 <= j < |s| ==> (j in idx <==> keep(s[j]))
  }

  lemma FilterIsSelection<T>(p: T -> bool, s: seq<T>)
    ensures IsSelection(Filter(p, s), s, p)
    ensures IsSubsequence(Filter(p, s), s)
  {
    FilterEmbedding(p, s);
    assert IsEmbedding(Filter(p, s), s, KeptIndices(p, s));
  }

  /** A prefix of an order-preserving subsequence is one too. */
  lemma PrefixOfSubsequence<T>(r: seq<T>, s: seq<T>, n: nat)
    requires IsSubsequence(r, s)
    requires n <= |r|
    ensures IsSubsequence(r[..n], s)
  {
    var idx :| IsEmbedding(r, s, idx);
    assert IsEmbedding(r[..n], s, idx[..n]);
  }

  lemma {:induction false} FilterAppend<T>(p: T -> bool, a: seq<T>, b: seq<T>)
    ensures Filter(p, a + b) == Filter(p, a) + Filter(p, b)
    decreases |b|
  {
    if |b| == 0 {
      assert a + b == a;
    } else {
      var bi := b[..|b| - 1];
      FilterAppend(p, a, bi);
      assert (a + b)[..|a + b| - 1] == a + bi;
      assert (a + b)[|a + b| - 1] == b[|b| - 1];
    }
  }

  /** Filtering twice is filtering once by the conjunction. */
  lemma {:induction false} FilterCompose<T>(p: T -> bool, q: T -> bool, pq: T -> bool, s: seq<T>)
    requires forall i :: 0 <= i < |s| ==> pq(s[i]) == (p(s[i]) && q(s[i]))
    ensures Filter(p, Filter(q, s)) == Filter(pq, s)
    decreases |s|
  {
    if |s| > 0 {
      var init := s[..|s| - 1];
      var last := s[|s| - 1];
      assert forall i :: 0 <= i < |init| ==> init[i] == s[i];
      FilterCompose(p, q, pq, init);
      var tail := if q(last) then [last] else [];
      FilterAppend(p, Filter(q, init), tail);
      if q(last) {
        assert [last][..0] == [];
      }
    }
  }

  /** A selection every element passes keeps the whole sequence. */
  lemma {:induction false} FilterAll<T>(p: T -> bool, s: seq<T>)
    requires forall i :: 0 <= i < |s| ==> p(s[i])
    ensures Filter(p, s) == s
    decreases |s|
  {
    if |s| > 0 {
      var init := s[..|s| - 1];
      assert forall i :: 0 <= i < |init| ==> init[i] == s[i];
      FilterAll(p, init);
      assert s == init + [s[|s| - 1]];
    }
  }

  /** `f` summed over `s` from the left, starting at 0. */
  function Sum<T>(f: T -> real, s: seq<T>): real
    decreases |s|
  {
    if |s| == 0 then 0.0 else Sum(f, s[..|s| - 1]) + f(s[|s| - 1])
  }

  /** Summing over a selection of non-negative terms never exceeds the full sum. */
  lemma {:induction false} SumOfFilterBounded<T>(f: T -> real, p: T -> bool, s: seq<T>)
    requires forall i :: 0 <= i < |s| ==> f(s[i]) >= 0.0
    ensures 0.0 <= Sum(f, Filter(p, s)) <= Sum(f, s)
    decreases |s|
  {
    if |s| > 0 {
      var init := s[..|s| - 1];
      var last := s[|s| - 1];
      assert forall i :: 0 <= i < |init| ==> init[i] == s[i];
      SumOfFilterBounded(f, p, init);
      var kept := Filter(p, init);
      assert Sum(f, s) == Sum(f, init) + f(last);
      if p(last) {
        assert Filter(p, s) == kept + [last];
        assert (kept + [last])[..|kept|] == kept;
      } else {
        assert Filter(p, s) == kept;
      }
    }
  }

  /** The first `n` elements of `s`, or all of them when there are fewer. */
  function Take<T>(s: seq<T>, n: nat): (r: seq<T>)
    ensures |r| == if |s| < n then |s| else n
    ensures r == s[..|r|]
  {
    if |s| <= n then s else s[..n]
  }
}
