/** The Lamport clock of node/time_sync.py: an event's clock is the length of the longest causal chain that ends
    in it, so an earlier cause always has the smaller clock. */
module LamportClocks {
  import opened VectorClocks
  import opened Causality

  function Advanced(time: int, received: int): int {
    Max(time, if received < 0 then 0 else received) + 1
  }

  class LamportClock {
    var time: int

    constructor ()
      ensures time == 0
    {
      time := 0;
    }

    method Tick() returns (now: int)
      modifies this
      ensures time == old(time) + 1 && now == time
    {
      time := time + 1;
      now := time;
    }

    /** A negative clock value is a protocol violation and counts as zero. */
    method Update(received: int) returns (now: int)
      modifies this
      ensures time == Advanced(old(time), received) && now == time
    {
      var seen := received;
      if seen < 0 {
        seen := 0;
      }
      time := (if time > seen then time else seen) + 1;
      now := time;
    }
  }

  /** The clock of node n after the first t events. */
  function LamportAt(run: seq<Event>, ids: seq<int>, t: nat, n: int): (c: nat)
    requires RunOk(run, ids) && t <= |run|
    decreases t, 0
  {
    if t == 0 then 0
    else
      var e, before := run[t - 1], LamportAt(run, ids, t - 1, n);
      if e.node != n then before
      else if e.Send? then before + 1
      else Advanced(before, LamportStamp(run, ids, e.sent))
  }

  function LamportStamp(run: seq<Event>, ids: seq<int>, i: nat): nat
    requires RunOk(run, ids) && i < |run|
    decreases i + 1, 1
  {
    LamportAt(run, ids, i + 1, run[i].node)
  }

  lemma {:induction false} LamportGrows(run: seq<Event>, ids: seq<int>, s: nat, t: nat, n: int)
    requires RunOk(run, ids) && s <= t <= |run|
    ensures LamportAt(run, ids, s, n) <= LamportAt(run, ids, t, n)
  {
    if s < t {
      LamportGrows(run, ids, s, t - 1, n);
    }
  }

  lemma DirectAdvances(run: seq<Event>, ids: seq<int>, i: nat, j: nat)
    requires RunOk(run, ids) && i < |run| && j < |run| && Direct(run, i, j)
    ensures LamportStamp(run, ids, i) < LamportStamp(run, ids, j)
  {
    if run[i].node == run[j].node {
      LamportGrows(run, ids, i + 1, j, run[i].node);
    }
  }

  /** If i happened before j, then i's clock is smaller than j's. */
  lemma {:induction false} CauseHasSmallerClock(run: seq<Event>, ids: seq<int>, i: nat, j: nat)
    requires RunOk(run, ids) && i < |run| && j < |run| && Before(run, i, j)
    ensures LamportStamp(run, ids, i) < LamportStamp(run, ids, j)
    decreases j
  {
    if Direct(run, i, j) {
      DirectAdvances(run, ids, i, j);
    } else {
      var k: nat :| k < j && Before(run, i, k) && Direct(run, k, j);
      CauseHasSmallerClock(run, ids, i, k);
      DirectAdvances(run, ids, k, j);
    }
  }

  /** A causal chain of events that ends in j. */
  predicate ChainTo(run: seq<Event>, chain: seq<nat>, j: nat) {
    chain != [] && chain[|chain| - 1] == j && (forall k | 0 <= k < |chain| :: chain[k] < |run|) &&
    forall k | 0 < k < |chain| :: Direct(run, chain[k - 1], chain[k])
  }

  lemma {:induction false} ChainsAreNoLonger(run: seq<Event>, ids: seq<int>, chain: seq<nat>, j: nat)
    requires RunOk(run, ids) && ChainTo(run, chain, j)
    ensures |chain| <= LamportStamp(run, ids, j)
  {
    if |chain| > 1 {
      var i := chain[|chain| - 2];
      ChainsAreNoLonger(run, ids, chain[..|chain| - 1], i);
      assert Direct(run, chain[|chain| - 2], chain[|chain| - 1]);
      DirectAdvances(run, ids, i, j);
    } else {
      assert LamportStamp(run, ids, j) >= 1;
    }
  }

  /** Either nothing has happened on n, or its clock is the clock of one of its events so far. */
  lemma {:induction false} ClockIsAnEvents(run: seq<Event>, ids: seq<int>, t: nat, n: int)
    requires RunOk(run, ids) && t <= |run|
    ensures LamportAt(run, ids, t, n) == 0 || exists i: nat ::
      i < t && run[i].node == n && LamportStamp(run, ids, i) == LamportAt(run, ids, t, n)
  {
    if t > 0 {
      if run[t - 1].node == n {
        assert LamportStamp(run, ids, t - 1) == LamportAt(run, ids, t, n);
      } else {
        ClockIsAnEvents(run, ids, t - 1, n);
      }
    }
  }

  lemma {:induction false} SomeChainIsAsLong(run: seq<Event>, ids: seq<int>, j: nat) returns (chain: seq<nat>)
    requires RunOk(run, ids) && j < |run|
    ensures ChainTo(run, chain, j) && |chain| == LamportStamp(run, ids, j)
    decreases j
  {
    var n := run[j].node;
    ClockIsAnEvents(run, ids, j, n);
    var before := LamportAt(run, ids, j, n);
    if run[j].Receive? && LamportStamp(run, ids, run[j].sent) >= before {
      chain := SomeChainIsAsLong(run, ids, run[j].sent);
      chain := chain + [j];
    } else if before == 0 {
      chain := [j];
    } else {
      var i: nat :| i < j && run[i].node == n && LamportStamp(run, ids, i) == before;
      chain := SomeChainIsAsLong(run, ids, i);
      chain := chain + [j];
    }
  }

  /** An event's clock is the length of the longest causal chain that ends in it. */
  lemma ClockIsLongestChain(run: seq<Event>, ids: seq<int>, j: nat)
    requires RunOk(run, ids) && j < |run|
    ensures forall chain :: ChainTo(run, chain, j) ==> |chain| <= LamportStamp(run, ids, j)
    ensures exists chain :: ChainTo(run, chain, j) && |chain| == LamportStamp(run, ids, j)
  {
    forall chain | ChainTo(run, chain, j)
      ensures |chain| <= LamportStamp(run, ids, j)
    {
      ChainsAreNoLonger(run, ids, chain, j);
    }
    var chain := SomeChainIsAsLong(run, ids, j);
  }
}
