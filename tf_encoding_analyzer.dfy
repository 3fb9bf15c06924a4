/**
  Results and configuration shared by the encoding analyzers: the bit-width,
  the computed encoding, the execution mode of the reduction, the range floor
  and the error an analyzer reports for a capability it does not offer.
 */
module Quantization {

  newtype uint8 = x: int | 0 <= x < 256

  /** Execution mode handed to the min/max reduction; it does not change its result. */
  datatype ComputationMode = Cpu | Gpu

  /** A fixed-point encoding: quantized = round(x / delta) + offset. */
  datatype TfEncoding = TfEncoding(bw: uint8, min: real, max: real, delta: real, offset: int)

  /**
    The scale/offset derivation (getComputedEncodings), an external routine:
    (bit-width, min, max, symmetric, strict symmetric, unsigned symmetric).
   */
  type EncodingDerivation = (uint8, real, real, bool, bool, bool) -> TfEncoding

  type PositiveReal = r: real | r > 0.0 witness 1.0

  /**
    The smallest width an encoding range may have.  Its value is defined
    outside the analyzer; the model knows only that it is positive.
   */
  const MIN_RANGE: PositiveReal

  datatype AnalyzerError = UnsupportedOperation

  datatype Result<+T, +E> = Success(value: T) | Failure(error: E)
}

/**
  The min/max encoding analyzer: a running minimum and maximum over every
  tensor observed, turned on demand into a zero-inclusive range of width at
  least MIN_RANGE and handed to the scale/offset derivation.
 */
module EncodingAnalyzer {
  import opened Reduction
  import opened Quantization

  /**
    A double as the accumulator uses it: finite, or one of the two infinities
    that serve as the initial sentinels.
   */
  datatype Bound = NegInf | Finite(v: real) | PosInf

  /** The order on bounds: NegInf below every real, PosInf above. */
  predicate Le(a: Bound, b: Bound) {
    match (a, b)
    case (NegInf, _) => true
    case (_, PosInf) => true
    case (Finite(x), Finite(y)) => x <= y
    case _ => false
  }

  /** std::min on bounds: the greatest lower bound of the two. */
  function BoundMin(a: Bound, b: Bound): (r: Bound)
    ensures Le(r, a) && Le(r, b)
    ensures r == a || r == b
  {
    if Le(a, b) then a else b
  }

  /** std::max on bounds: the least upper bound of the two. */
  function BoundMax(a: Bound, b: Bound): (r: Bound)
    ensures Le(a, r) && Le(b, r)
    ensures r == a || r == b
  {
    if Le(a, b) then b else a
  }

  /** The running pair of the analyzer (_accumulatedStats). */
  datatype AccumulatedStats = AccumulatedStats(min: Bound, max: Bound)

  /** The accumulator before any tensor is seen: +infinity, -infinity. */
  const Initial := AccumulatedStats(PosInf, NegInf)

  /** The accumulator a stream of elements should produce: its minimum and maximum. */
  function StatsOf(xs: seq<real>): AccumulatedStats {
    if |xs| == 0 then Initial else AccumulatedStats(Finite(SeqMin(xs)), Finite(SeqMax(xs)))
  }

  /**
    One update: fold the current tensor's minimum and maximum into the pair.
    The minimum never rises, the maximum never falls, and the result bounds
    the current tensor's extremes.
   */
  function Merge(s: AccumulatedStats, currentMin: real, currentMax: real): (r: AccumulatedStats)
    ensures Le(r.min, s.min) && Le(r.min, Finite(currentMin))
    ensures Le(s.max, r.max) && Le(Finite(currentMax), r.max)
    ensures r.min == s.min || r.min == Finite(currentMin)
    ensures r.max == s.max || r.max == Finite(currentMax)
  {
    AccumulatedStats(BoundMin(s.min, Finite(currentMin)), BoundMax(s.max, Finite(currentMax)))
  }

  /** Merging a tensor into the statistics of a stream gives those of the stream extended by it. */
  lemma MergeStatsOf(xs: seq<real>, tensor: seq<real>)
    requires |tensor| > 0
    ensures Merge(StatsOf(xs), SeqMin(tensor), SeqMax(tensor)) == StatsOf(xs + tensor)
  {
    var cMin, cMax := SeqMin(tensor), SeqMax(tensor);
    if |xs| == 0 {
      assert xs + tensor == tensor;
      assert Merge(Initial, cMin, cMax) == AccumulatedStats(Finite(cMin), Finite(cMax));
    } else {
      var all := xs + tensor;
      assert |all| > 0;
      SeqMinAppend(xs, tensor);
      SeqMaxAppend(xs, tensor);
      var lo, hi := SeqMin(xs), SeqMax(xs);
      assert StatsOf(xs) == AccumulatedStats(Finite(lo), Finite(hi));
      assert Merge(AccumulatedStats(Finite(lo), Finite(hi)), cMin, cMax)
          == AccumulatedStats(Finite(RealMin(lo, cMin)), Finite(RealMax(hi, cMax)));
      assert StatsOf(all) == AccumulatedStats(Finite(SeqMin(all)), Finite(SeqMax(all)));
    }
  }

  /**
    The accumulated pair depends only on which elements were observed: any
    reordering of the elements, and so any order or partition of the batches,
    yields the same pair.
   */
  lemma StatsOfPermutation(xs: seq<real>, ys: seq<real>)
    requires multiset(xs) == multiset(ys)
    ensures StatsOf(xs) == StatsOf(ys)
  {
    if |xs| == 0 {
      assert |ys| == |multiset(ys)| == 0;
    } else {
      SeqMinPermutation(xs, ys);
      SeqMaxPermutation(xs, ys);
    }
  }

  /** Once an element has been observed, the accumulated minimum is at most the maximum. */
  lemma StatsOfOrdered(xs: seq<real>)
    requires |xs| > 0
    ensures StatsOf(xs).min.Finite? && StatsOf(xs).max.Finite?
    ensures StatsOf(xs).min.v <= StatsOf(xs).max.v
  {
  }

  /** The encoding range: lo is the encoding's min, hi its max. */
  datatype Range = Range(lo: real, hi: real)

  /**
    The range adjustment of computeEncoding: widen the accumulated range to
    contain zero, then raise the maximum so that the width is at least
    MIN_RANGE.  The minimum is min(0, accumulated min); the maximum is the
    least value that is at least 0, the accumulated maximum and lo + MIN_RANGE.
   */
  function AdjustRange(s: AccumulatedStats): (r: Range)
    requires s.min != NegInf && s.max != PosInf
    ensures r.lo <= 0.0 <= r.hi
    ensures r.hi - r.lo >= MIN_RANGE
    ensures Le(Finite(r.lo), s.min) && Le(s.max, Finite(r.hi))
    ensures r.lo == 0.0 || Finite(r.lo) == s.min
    ensures r.hi == 0.0 || Finite(r.hi) == s.max || r.hi == r.lo + MIN_RANGE
  {
    var newMin := BoundMin(Finite(0.0), s.min).v;
    var newMax := BoundMax(Finite(0.0), s.max).v;
    Range(newMin, RealMax(newMax, newMin + MIN_RANGE))
  }

  /**
    The nudge leaves a zero-clamped range alone when it is already at least
    MIN_RANGE wide, and otherwise sets the maximum to exactly lo + MIN_RANGE.
   */
  lemma AdjustRangeNudge(s: AccumulatedStats, clampedMax: real)
    requires s.min != NegInf && s.max != PosInf
    requires Finite(clampedMax) == BoundMax(Finite(0.0), s.max)
    ensures var r := AdjustRange(s);
      if clampedMax - r.lo >= MIN_RANGE then r.hi == clampedMax else r.hi == r.lo + MIN_RANGE
  {
  }

  /**
    The adjusted range is the tightest one allowed: every range that holds
    zero and the accumulated range starts at or below lo, and every such range
    that starts at lo and is at least MIN_RANGE wide ends at or above hi.
   */
  lemma AdjustRangeTightest(s: AccumulatedStats, q: Range)
    requires s.min != NegInf && s.max != PosInf
    requires q.lo <= 0.0 <= q.hi
    requires Le(Finite(q.lo), s.min) && Le(s.max, Finite(q.hi))
    ensures q.lo <= AdjustRange(s).lo
    ensures q.lo == AdjustRange(s).lo && q.hi - q.lo >= MIN_RANGE ==> AdjustRange(s).hi <= q.hi
  {
  }

  /** Before any update the sentinels clamp to zero and the range is [0, MIN_RANGE]. */
  lemma AdjustRangeInitial()
    ensures AdjustRange(Initial) == Range(0.0, MIN_RANGE)
  {
  }

  /** An all-zero stream gives exactly [0, MIN_RANGE], never [0, 0]. */
  lemma AdjustRangeAllZero(xs: seq<real>)
    requires |xs| > 0
    requires forall i :: 0 <= i < |xs| ==> xs[i] == 0.0
    ensures AdjustRange(StatsOf(xs)) == Range(0.0, MIN_RANGE)
  {
  }

  /** The encoding analyzer over one stream of calibration tensors. */
  class TfEncodingAnalyzer {
    var accumulatedStats: AccumulatedStats
    var statsUpdated: bool
    /** Every element observed so far, in the order of the updates. */
    ghost var observed: seq<real>

    ghost predicate Valid()
      reads this
    {
      && statsUpdated == (|observed| > 0)
      && accumulatedStats == StatsOf(observed)
    }

    constructor ()
      ensures Valid()
      ensures observed == [] && !statsUpdated && accumulatedStats == Initial
    {
      accumulatedStats := Initial;
      statsUpdated := false;
      observed := [];
    }

    /**
      updateStats: reduce the tensor to its minimum and maximum and fold them
      into the running pair; the flag records that data was seen.
     */
    method UpdateStats(tensor: seq<real>, tensorCpuGpuMode: ComputationMode)
      requires Valid()
      requires |tensor| > 0
      modifies this
      ensures Valid()
      ensures statsUpdated
      ensures observed == old(observed) + tensor
      ensures accumulatedStats == Merge(old(accumulatedStats), SeqMin(tensor), SeqMax(tensor))
      ensures accumulatedStats.min.Finite? && accumulatedStats.max.Finite?
      ensures accumulatedStats.min.v <= SeqMin(tensor) && SeqMax(tensor) <= accumulatedStats.max.v
      ensures accumulatedStats.min.v <= accumulatedStats.max.v
    {
      statsUpdated := true;
      var currentMin := SeqMin(tensor);
      var currentMax := SeqMax(tensor);
      accumulatedStats := AccumulatedStats(BoundMin(accumulatedStats.min, Finite(currentMin)),
                                           BoundMax(accumulatedStats.max, Finite(currentMax)));
      MergeStatsOf(observed, tensor);
      observed := observed + tensor;
      StatsOfOrdered(observed);
    }

    /**
      computeEncoding: the adjusted range goes, with the bit-width and the
      three mode flags, to the scale/offset derivation, whose result is
      returned as it is.  Strict and unsigned symmetric are exclusive in
      symmetric mode.  The state is only read.
     */
    function ComputeEncoding(bw: uint8, useSymmetricEncodings: bool, useStrictSymmetric: bool,
                             useUnsignedSymmetric: bool, getComputedEncodings: EncodingDerivation): (r: TfEncoding)
      reads this
      requires Valid()
      requires useSymmetricEncodings ==> !(useStrictSymmetric && useUnsignedSymmetric)
      ensures var range := AdjustRange(accumulatedStats);
        r == getComputedEncodings(bw, range.lo, range.hi,
                                  useSymmetricEncodings, useStrictSymmetric, useUnsignedSymmetric)
      ensures forall i :: 0 <= i < |observed| ==>
                AdjustRange(accumulatedStats).lo <= observed[i] <= AdjustRange(accumulatedStats).hi
    {
      var range := AdjustRange(accumulatedStats);
      getComputedEncodings(bw, range.lo, range.hi, useSymmetricEncodings, useStrictSymmetric, useUnsignedSymmetric)
    }

    /** getStatsHistogram: no histogram is kept, so the request always fails. */
    function GetStatsHistogram(): (r: Result<seq<(real, real)>, AnalyzerError>)
      ensures r == Failure(UnsupportedOperation)
    {
      Failure(UnsupportedOperation)
    }
  }

  /** Two calibration batches followed by an encoding request. */
  method CalibrationExample(getComputedEncodings: EncodingDerivation) {
    var analyzer := new TfEncodingAnalyzer();
    analyzer.UpdateStats([1.0, 2.0, 3.0], Cpu);
    assert analyzer.accumulatedStats == AccumulatedStats(Finite(1.0), Finite(3.0));
    analyzer.UpdateStats([0.5, 10.0], Cpu);
    assert analyzer.accumulatedStats == AccumulatedStats(Finite(0.5), Finite(10.0));
    assert AdjustRange(analyzer.accumulatedStats) == Range(0.0, RealMax(10.0, MIN_RANGE));
    var e := analyzer.ComputeEncoding(8, false, false, false, getComputedEncodings);
    assert e == getComputedEncodings(8, 0.0, RealMax(10.0, MIN_RANGE), false, false, false);
  }

  /** An all-negative batch: the zero clamp pulls the maximum up to 0. */
  method NegativeBatchExample() {
    var analyzer := new TfEncodingAnalyzer();
    analyzer.UpdateStats([-5.0, -1.0], Gpu);
    assert analyzer.accumulatedStats == AccumulatedStats(Finite(-5.0), Finite(-1.0));
    assert AdjustRange(analyzer.accumulatedStats) == Range(-5.0, RealMax(0.0, -5.0 + MIN_RANGE));
  }
}
