/**
  The element-wise min/max reduction that the analyzer asks of its
  collaborator (GetMin / GetMax over a tensor buffer).  Whatever execution
  mode the collaborator uses, its result is the minimum, respectively the
  maximum, of the elements; that is all the analyzer relies on, so the
  reduction is modelled as a function over a non-empty sequence.
 */
module Reduction {

  function RealMin(a: real, b: real): real { if b < a then b else a }

  function RealMax(a: real, b: real): real { if a < b then b else a }

  /** The smallest element of a non-empty tensor. */
  function SeqMin(s: seq<real>): (m: real)
    requires |s| > 0
    ensures m in s
    ensures forall i :: 0 <= i < |s| ==> m <= s[i]
  {
    if |s| == 1 then s[0] else RealMin(s[0], SeqMin(s[1..]))
  }

  /** The largest element of a non-empty tensor. */
  function SeqMax(s: seq<real>): (m: real)
    requires |s| > 0
    ensures m in s
    ensures forall i :: 0 <= i < |s| ==> s[i] <= m
  {
    if |s| == 1 then s[0] else RealMax(s[0], SeqMax(s[1..]))
  }

  /** A member of a tensor bounding every element from below is its minimum. */
  lemma SeqMinUnique(s: seq<real>, m: real)
    requires m in s
    requires forall i :: 0 <= i < |s| ==> m <= s[i]
    ensures SeqMin(s) == m
  {
  }

  /** A member of a tensor bounding every element from above is its maximum. */
  lemma SeqMaxUnique(s: seq<real>, m: real)
    requires m in s
    requires forall i :: 0 <= i < |s| ==> s[i] <= m
    ensures SeqMax(s) == m
  {
  }

  /** The minimum of two batches together is the smaller of their minima. */
  lemma SeqMinAppend(a: seq<real>, b: seq<real>)
    requires |a| > 0 && |b| > 0
    ensures SeqMin(a + b) == RealMin(SeqMin(a), SeqMin(b))
  {
    var m := RealMin(SeqMin(a), SeqMin(b));
    forall i | 0 <= i < |a + b| ensures m <= (a + b)[i] {
      if i < |a| { assert (a + b)[i] == a[i]; } else { assert (a + b)[i] == b[i - |a|]; }
    }
    SeqMinUnique(a + b, m);
  }

  /** The maximum of two batches together is the larger of their maxima. */
  lemma SeqMaxAppend(a: seq<real>, b: seq<real>)
    requires |a| > 0 && |b| > 0
    ensures SeqMax(a + b) == RealMax(SeqMax(a), SeqMax(b))
  {
    var m := RealMax(SeqMax(a), SeqMax(b));
    forall i | 0 <= i < |a + b| ensures (a + b)[i] <= m {
      if i < |a| { assert (a + b)[i] == a[i]; } else { assert (a + b)[i] == b[i - |a|]; }
    }
    SeqMaxUnique(a + b, m);
  }

  /** The minimum depends only on the multiset of elements, not on their order. */
  lemma SeqMinPermutation(a: seq<real>, b: seq<real>)
    requires |a| > 0
    requires multiset(a) == multiset(b)
    ensures |b| > 0 && SeqMin(a) == SeqMin(b)
  {
    assert |b| == |multiset(b)| == |multiset(a)| == |a|;
    var ma, mb := SeqMin(a), SeqMin(b);
    assert ma in multiset(b) && mb in multiset(a);
    var i :| 0 <= i < |b| && b[i] == ma;
    var j :| 0 <= j < |a| && a[j] == mb;
    assert mb <= b[i] && ma <= a[j];
  }

  /** The maximum depends only on the multiset of elements, not on their order. */
  lemma SeqMaxPermutation(a: seq<real>, b: seq<real>)
    requires |a| > 0
    requires multiset(a) == multiset(b)
    ensures |b| > 0 && SeqMax(a) == SeqMax(b)
  {
    assert |b| == |multiset(b)| == |multiset(a)| == |a|;
    var ma, mb := SeqMax(a), SeqMax(b);
    assert ma in multiset(b) && mb in multiset(a);
    var i :| 0 <= i < |b| && b[i] == ma;
    var j :| 0 <= j < |a| && a[j] == mb;
    assert b[i] <= mb && a[j] <= ma;
  }
}
