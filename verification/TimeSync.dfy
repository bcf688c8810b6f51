/** The offset estimate of TimeSyncer: a sliding window of samples, an outlier filter on round-trip times and the
    median. Offsets and times are exact real numbers. */
module TimeSync {
  import opened Median

  datatype Sample = Sample(offset: real, rtt: real)
  datatype Estimate = Estimate(offset: real, samples: seq<real>, rtts: seq<real>, rejected: nat)

  const RTT_REJECT_MULTIPLIER := 3.0

  type Size = n: int | n >= 1 witness 1

  predicate Outlier(rtts: seq<real>, rtt: real) {
    rtt > 0.0 && |rtts| >= 3 && MedianOf(rtts) > 0.0 && rtt > MedianOf(rtts) * RTT_REJECT_MULTIPLIER
  }

  /** Append, then pop the oldest if there are too many. */
  function Slide(s: seq<real>, x: real, size: Size): (r: seq<real>)
    ensures r != []
  {
    if |s| + 1 > size then (s + [x])[1..] else s + [x]
  }

  function Added(e: Estimate, s: Sample, size: Size): Estimate {
    if Outlier(e.rtts, s.rtt) then e.(rejected := e.rejected + 1)
    else
      var samples := Slide(e.samples, s.offset, size);
      Estimate(MedianOf(samples), samples, if s.rtt > 0.0 then Slide(e.rtts, s.rtt, size) else e.rtts, e.rejected)
  }

  /** The state after a change of the reference clock. */
  function Referenced(e: Estimate): Estimate {
    Estimate(0.0, [], [], e.rejected)
  }

  class TimeSyncer {
    const sampleCount: Size
    var offset: real
    var samples: seq<real>
    var rttSamples: seq<real>
    var rejectedCount: nat

    ghost function View(): Estimate
      reads this
    {
      Estimate(offset, samples, rttSamples, rejectedCount)
    }

    constructor (sampleCount: Size)
      ensures this.sampleCount == sampleCount && View() == Estimate(0.0, [], [], 0)
    {
      this.sampleCount := sampleCount;
      offset, samples, rttSamples, rejectedCount := 0.0, [], [], 0;
    }

    /** Samples of another reference clock are dropped. */
    method SetReference()
      modifies this
      ensures View() == Referenced(old(View()))
    {
      samples, rttSamples := [], [];
      offset := 0.0;
    }

    method IsRttOutlier(rtt: real) returns (outlier: bool)
      ensures outlier == Outlier(rttSamples, rtt)
    {
      if rtt <= 0.0 || |rttSamples| < 3 {
        return false;
      }
      var medianRtt := MedianOf(rttSamples);
      if medianRtt <= 0.0 {
        return false;
      }
      outlier := rtt > medianRtt * RTT_REJECT_MULTIPLIER;
    }

    method AddSample(s: Sample)
      modifies this
      ensures View() == Added(old(View()), s, sampleCount)
    {
      var outlier := IsRttOutlier(s.rtt);
      if s.rtt > 0.0 && outlier {
        rejectedCount := rejectedCount + 1;
        return;
      }
      if s.rtt > 0.0 {
        rttSamples := rttSamples + [s.rtt];
        if |rttSamples| > sampleCount {
          rttSamples := rttSamples[1..];
        }
      }
      samples := samples + [s.offset];
      if |samples| > sampleCount {
        samples := samples[1..];
      }
      offset := MedianOf(samples);
    }
  }

  // ---- runs ----

  datatype Op = Add(sample: Sample) | NewReference

  function Run(ops: seq<Op>, size: Size): Estimate {
    if ops == [] then Estimate(0.0, [], [], 0)
    else
      var before := Run(ops[..|ops| - 1], size);
      match ops[|ops| - 1]
      case Add(s) => Added(before, s, size)
      case NewReference => Referenced(before)
  }

  /** The samples accepted since the last change of reference. */
  function Accepted(ops: seq<Op>, size: Size): seq<Sample> {
    if ops == [] then []
    else
      var before := Accepted(ops[..|ops| - 1], size);
      match ops[|ops| - 1]
      case Add(s) => if Outlier(Run(ops[..|ops| - 1], size).rtts, s.rtt) then before else before + [s]
      case NewReference => []
  }

  function Last<T>(s: seq<T>, size: Size): seq<T> {
    if |s| > size then s[|s| - size..] else s
  }

  function Offsets(s: seq<Sample>): (r: seq<real>)
    ensures |r| == |s| && forall k | 0 <= k < |s| :: r[k] == s[k].offset
  {
    if s == [] then [] else Offsets(s[..|s| - 1]) + [s[|s| - 1].offset]
  }

  function PositiveRtts(s: seq<Sample>): seq<real> {
    if s == [] then []
    else PositiveRtts(s[..|s| - 1]) + if s[|s| - 1].rtt > 0.0 then [s[|s| - 1].rtt] else []
  }

  lemma SlideIsLast(s: seq<real>, x: real, size: Size)
    ensures Slide(Last(s, size), x, size) == Last(s + [x], size)
  {
  }

  lemma WindowStartsEmpty(size: Size)
    ensures Last(Offsets([]), size) == [] && Last(PositiveRtts([]), size) == []
  {
  }

  lemma WindowAppends(was: seq<Sample>, s: Sample)
    ensures Offsets(was + [s]) == Offsets(was) + [s.offset]
    ensures PositiveRtts(was + [s]) == if s.rtt > 0.0 then PositiveRtts(was) + [s.rtt] else PositiveRtts(was)
  {
    assert (was + [s])[..|was|] == was;
  }

  /** After any run, the window holds the offsets of the last accepted samples, the round-trip window the last
      positive round-trip times among them, and the estimate is the median of the window. */
  lemma {:induction false} WindowIsLastAccepted(ops: seq<Op>, size: Size)
    ensures var e := Run(ops, size);
      e.samples == Last(Offsets(Accepted(ops, size)), size) &&
      e.rtts == Last(PositiveRtts(Accepted(ops, size)), size) &&
      e.offset == if e.samples == [] then 0.0 else MedianOf(e.samples)
  {
    hide MedianOf, Outlier, Slide, Last, Offsets, PositiveRtts;
    if ops == [] {
      WindowStartsEmpty(size);
    } else if ops[|ops| - 1].NewReference? {
      WindowStartsEmpty(size);
    } else {
      var before, s := ops[..|ops| - 1], ops[|ops| - 1].sample;
      WindowIsLastAccepted(before, size);
      var was := Accepted(before, size);
      WindowAppends(was, s);
      SlideIsLast(Offsets(was), s.offset, size);
      SlideIsLast(PositiveRtts(was), s.rtt, size);
    }
  }

  // ---- the error bound ----

  /** The sample came from a round trip in which a server ahead by theta read its clock at local time `at`. */
  predicate Measures(s: Sample, theta: real, send: real, at: real, receive: real) {
    send <= at <= receive && s.rtt == receive - send && s.offset == (at + theta) - (send + s.rtt / 2.0)
  }

  ghost predicate Genuine(s: Sample, theta: real, bound: real) {
    s.rtt <= bound && exists send, at, receive :: Measures(s, theta, send, at, receive)
  }

  ghost function GenuineCount(s: seq<Sample>, theta: real, bound: real): nat {
    if s == [] then 0
    else GenuineCount(s[..|s| - 1], theta, bound) + if Genuine(s[|s| - 1], theta, bound) then 1 else 0
  }

  /** One round trip of at most `bound` misses the true offset by at most half of it. */
  lemma GenuineIsClose(s: Sample, theta: real, bound: real)
    requires Genuine(s, theta, bound)
    ensures theta - bound / 2.0 <= s.offset <= theta + bound / 2.0
  {
    var send, at, receive :| Measures(s, theta, send, at, receive);
  }

  lemma {:induction false} InsideSplits(s: seq<real>, x: real, lo: real, hi: real)
    ensures Inside(s + [x], lo, hi) == Inside(s, lo, hi) + if lo <= x <= hi then 1 else 0
  {
    if s == [] {
      assert s + [x] == [x];
    } else {
      InsideSplits(s[1..], x, lo, hi);
      assert (s + [x])[1..] == s[1..] + [x];
    }
  }

  lemma {:induction false} GenuineAreInside(s: seq<Sample>, theta: real, bound: real)
    ensures Inside(Offsets(s), theta - bound / 2.0, theta + bound / 2.0) >= GenuineCount(s, theta, bound)
  {
    if s != [] {
      var before, x := s[..|s| - 1], s[|s| - 1];
      GenuineAreInside(before, theta, bound);
      InsideSplits(Offsets(before), x.offset, theta - bound / 2.0, theta + bound / 2.0);
      if Genuine(x, theta, bound) {
        GenuineIsClose(x, theta, bound);
      }
    }
  }

  lemma OffsetsOfLast(s: seq<Sample>, size: Size)
    ensures Offsets(Last(s, size)) == Last(Offsets(s), size)
  {
  }

  /** If more than half of the samples in the window are genuine round trips of at most `bound`, the estimate is
      within bound / 2 of the true offset, whatever the other samples are. */
  lemma EstimateErrorBound(ops: seq<Op>, size: Size, theta: real, bound: real)
    requires 2 * GenuineCount(Last(Accepted(ops, size), size), theta, bound) > |Last(Accepted(ops, size), size)|
    ensures theta - bound / 2.0 <= Run(ops, size).offset <= theta + bound / 2.0
  {
    hide MedianOf, Genuine, GenuineCount, Inside, Run, Accepted, Last, Offsets;
    var window := Last(Accepted(ops, size), size);
    WindowIsLastAccepted(ops, size);
    OffsetsOfLast(Accepted(ops, size), size);
    GenuineAreInside(window, theta, bound);
    MajorityHoldsMedian(Offsets(window), theta - bound / 2.0, theta + bound / 2.0);
  }

  // ---- the outlier filter ----

  /** Every later op is a sample that is an outlier against the history as it stands. */
  predicate AllSlow(e: Estimate, later: seq<Op>) {
    forall k | 0 <= k < |later| :: later[k].Add? && Outlier(e.rtts, later[k].sample.rtt)
  }

  /** The filter does not recover by itself: a stretch of the run rejects everything, and leaves the estimate where
      it was, if and only if every sample in it exceeds three times the positive median of the history before it. */
  lemma SlowPathFreezesIff(ops: seq<Op>, later: seq<Op>, size: Size)
    ensures var e, r := Run(ops, size), Run(ops + later, size);
      e.rejected <= r.rejected <= e.rejected + |later| &&
      (r.rejected == e.rejected + |later| <==> AllSlow(e, later)) &&
      (AllSlow(e, later) ==> r == e.(rejected := e.rejected + |later|))
  {
    hide Run, AllSlow;
    RejectsAtMost(ops, later, size);
    if AllSlow(Run(ops, size), later) {
      SlowPathFreezes(ops, later, size);
    }
  }

  lemma {:induction false} SlowPathFreezes(ops: seq<Op>, later: seq<Op>, size: Size)
    requires AllSlow(Run(ops, size), later)
    ensures Run(ops + later, size) == Run(ops, size).(rejected := Run(ops, size).rejected + |later|)
  {
    hide MedianOf, Slide, Outlier;
    if later == [] {
      assert ops + later == ops;
    } else {
      hide Run;
      var before, op := later[..|later| - 1], later[|later| - 1];
      SlowPathFreezes(ops, before, size);
      assert ops + later == (ops + before) + [op];
      RunNext(ops + before, op.sample, size);
    }
  }

  /** One op rejects at most one sample; if a stretch rejects one each, all were slow. */
  lemma {:induction false} RejectsAtMost(ops: seq<Op>, later: seq<Op>, size: Size)
    ensures Run(ops, size).rejected <= Run(ops + later, size).rejected <= Run(ops, size).rejected + |later|
    ensures Run(ops + later, size).rejected == Run(ops, size).rejected + |later| ==> AllSlow(Run(ops, size), later)
  {
    hide MedianOf, Slide, Outlier;
    if later == [] {
      assert ops + later == ops;
    } else {
      var before, op := later[..|later| - 1], later[|later| - 1];
      RejectsAtMost(ops, before, size);
      assert ops + later == (ops + before) + [op];
      assert (ops + later)[..|ops + later| - 1] == ops + before;
      if Run(ops + later, size).rejected == Run(ops, size).rejected + |later| {
        SlowPathFreezes(ops, before, size);
      }
    }
  }

  /** In every run a sample is rejected exactly when its round trip is positive, at least three round trips are held,
      their median is positive, and it takes more than three times as long. */
  lemma RejectedIff(ops: seq<Op>, s: Sample, size: Size)
    ensures var e, r := Run(ops, size), Run(ops + [Add(s)], size);
      (r == e.(rejected := e.rejected + 1) <==>
        s.rtt > 0.0 && |e.rtts| >= 3 && MedianOf(e.rtts) > 0.0 && s.rtt > 3.0 * MedianOf(e.rtts)) &&
      (r.rejected == e.rejected || r == e.(rejected := e.rejected + 1)) &&
      (r.rejected == e.rejected ==> r.samples != [] && r.samples[|r.samples| - 1] == s.offset)
  {
    hide MedianOf, Run;
    RunNext(ops, s, size);
  }

  /** Three seconds against a history of three round trips of one second are still taken in, anything longer is not;
      with only two round trips held everything is taken in. */
  lemma ThresholdExample(s: Sample, size: Size)
    requires size >= 3
    ensures Run(WARM + [Add(s)], size).rejected == (if s.rtt > 3.0 then 1 else 0)
    ensures Run(WARM[..2] + [Add(s)], size).rejected == 0
  {
    hide MedianOf, Run;
    WarmUp(size);
    ThreeEqual(1.0);
    RejectedIff(WARM, s, size);
    TwoHeld(size);
    RejectedIff(WARM[..2], s, size);
  }

  lemma TwoHeld(size: Size)
    requires size >= 3
    ensures Run(WARM[..2], size).rtts == [1.0, 1.0] && Run(WARM[..2], size).rejected == 0
  {
    hide MedianOf, Run;
    RunNone(size);
    assert WARM[..2] == ([] + [Add(GOOD)]) + [Add(GOOD)];
    RunNext([], GOOD, size);
    RunNext([] + [Add(GOOD)], GOOD, size);
    assert Slide([], 1.0, size) == [1.0] && Slide([1.0], 1.0, size) == [1.0, 1.0];
  }

  const GOOD := Sample(0.0, 1.0)
  const SLOW := Sample(5.0, 4.0)
  const WARM := [Add(GOOD), Add(GOOD), Add(GOOD)]

  /** Three good round trips of one second, then any number of samples from a path that has become four times as
      slow and a clock that is five seconds off: none is taken in. */
  lemma FreezeExample(n: nat, size: Size)
    requires size >= 3
    ensures var r := Run(WARM + seq(n, i => Add(SLOW)), size);
      r.offset == 0.0 && r.rejected == n && r.samples == [0.0, 0.0, 0.0]
  {
    hide Run;
    WarmUp(size);
    ThreeEqual(1.0);
    SlowPathFreezes(WARM, seq(n, i => Add(SLOW)), size);
  }

  lemma WarmUp(size: Size)
    requires size >= 3
    ensures Run(WARM, size) == Estimate(0.0, [0.0, 0.0, 0.0], [1.0, 1.0, 1.0], 0)
  {
    hide MedianOf, Run;
    RunNone(size);
    assert [Add(GOOD)] == [] + [Add(GOOD)] && [Add(GOOD), Add(GOOD)] == [Add(GOOD)] + [Add(GOOD)];
    assert WARM == [Add(GOOD), Add(GOOD)] + [Add(GOOD)];
    RunNext([], GOOD, size);
    assert Slide([], 0.0, size) == [0.0] && Slide([], 1.0, size) == [1.0];
    RunNext([Add(GOOD)], GOOD, size);
    assert Slide([0.0], 0.0, size) == [0.0, 0.0] && Slide([1.0], 1.0, size) == [1.0, 1.0];
    RunNext([Add(GOOD), Add(GOOD)], GOOD, size);
    assert Slide([0.0, 0.0], 0.0, size) == [0.0, 0.0, 0.0] && Slide([1.0, 1.0], 1.0, size) == [1.0, 1.0, 1.0];
    ThreeEqual(0.0);
  }

  lemma RunNone(size: Size)
    ensures Run([], size) == Estimate(0.0, [], [], 0)
  {
  }

  lemma ThreeEqual(x: real)
    ensures MedianOf([x, x, x]) == x
  {
    assert Ascending([x, x, x]);
    AscendingIsSorted([x, x, x]);
  }

  lemma RunNext(ops: seq<Op>, s: Sample, size: Size)
    ensures Run(ops + [Add(s)], size) == Added(Run(ops, size), s, size)
  {
    assert (ops + [Add(s)])[..|ops|] == ops;
  }
}
