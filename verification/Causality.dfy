/** Runs of sends and receives on a fixed set of nodes: comparing the clocks of two events decides which of them
    happened before the other. */
module Causality {
  import opened VectorClocks

  /** `sent` is the index of the send whose message is received. */
  datatype Event = Send(node: int) | Receive(node: int, sent: nat)

  predicate RunOk(run: seq<Event>, ids: seq<int>) {
    forall i | 0 <= i < |run| ::
      run[i].node in ids && (run[i].Receive? ==> run[i].sent < i && run[run[i].sent].Send?)
  }

  /** The clock of node n after the first t events. */
  function ClockAt(run: seq<Event>, ids: seq<int>, t: nat, n: int): (c: Clock)
    requires RunOk(run, ids) && t <= |run| && n in ids
    ensures c.Keys == set k | k in ids
    decreases t, 0
  {
    if t == 0 then Zero(ids)
    else
      var e, before := run[t - 1], ClockAt(run, ids, t - 1, n);
      if e.node != n then before
      else if e.Send? then Ticked(before, n)
      else Updated(before, n, Stamp(run, ids, e.sent))
  }

  /** The snapshot that tick or update returned for event i. */
  function Stamp(run: seq<Event>, ids: seq<int>, i: nat): (c: Clock)
    requires RunOk(run, ids) && i < |run|
    ensures c.Keys == set k | k in ids
    decreases i + 1, 1
  {
    ClockAt(run, ids, i + 1, run[i].node)
  }

  /** i is an earlier event of j's node, or the send that j receives. */
  predicate Direct(run: seq<Event>, i: nat, j: nat)
    requires i < |run| && j < |run|
  {
    i < j && (run[i].node == run[j].node || (run[j].Receive? && run[j].sent == i))
  }

  /** Event i happened before event j: a chain of direct steps leads from i to j. */
  ghost predicate Before(run: seq<Event>, i: nat, j: nat)
    requires i < |run| && j < |run|
    decreases j
  {
    Direct(run, i, j) || exists k: nat | k < j :: Before(run, i, k) && Direct(run, k, j)
  }

  /** How many of the first t events are n's. */
  function EventsOf(run: seq<Event>, n: int, t: nat): (r: nat)
    requires t <= |run|
    ensures r <= t
  {
    if t == 0 then 0 else EventsOf(run, n, t - 1) + if run[t - 1].node == n then 1 else 0
  }

  lemma {:induction false} EventsGrow(run: seq<Event>, n: int, s: nat, t: nat)
    requires s <= t <= |run|
    ensures EventsOf(run, n, s) <= EventsOf(run, n, t)
  {
    if s < t {
      EventsGrow(run, n, s, t - 1);
    }
  }

  /** A clock never runs ahead of the number of events of a node, and a node's own entry equals it. */
  lemma {:induction false} EntryBound(run: seq<Event>, ids: seq<int>, t: nat, n: int, m: int)
    requires RunOk(run, ids) && t <= |run| && n in ids && m in ids
    ensures 0 <= ClockAt(run, ids, t, n)[m] <= EventsOf(run, m, t)
    ensures n == m ==> ClockAt(run, ids, t, n)[m] == EventsOf(run, m, t)
    decreases t
  {
    if t > 0 {
      var e := run[t - 1];
      EntryBound(run, ids, t - 1, n, m);
      if e.node == n && e.Receive? {
        EntryBound(run, ids, e.sent + 1, run[e.sent].node, m);
        EventsGrow(run, m, e.sent + 1, t - 1);
      }
    }
  }

  /** A node's clock only grows. */
  lemma {:induction false} ClockGrows(run: seq<Event>, ids: seq<int>, s: nat, t: nat, n: int, m: int)
    requires RunOk(run, ids) && s <= t <= |run| && n in ids && m in ids
    ensures ClockAt(run, ids, s, n)[m] <= ClockAt(run, ids, t, n)[m]
  {
    if s < t {
      ClockGrows(run, ids, s, t - 1, n, m);
    }
  }

  /** Along a causal chain every entry grows. */
  lemma {:induction false} StampGrows(run: seq<Event>, ids: seq<int>, i: nat, j: nat, m: int)
    requires RunOk(run, ids) && i < |run| && j < |run| && m in ids && Before(run, i, j)
    ensures i < j && Stamp(run, ids, i)[m] <= Stamp(run, ids, j)[m]
    decreases j
  {
    if Direct(run, i, j) {
      DirectGrows(run, ids, i, j, m);
    } else {
      var k: nat :| k < j && Before(run, i, k) && Direct(run, k, j);
      StampGrows(run, ids, i, k, m);
      DirectGrows(run, ids, k, j, m);
    }
  }

  lemma DirectGrows(run: seq<Event>, ids: seq<int>, i: nat, j: nat, m: int)
    requires RunOk(run, ids) && i < |run| && j < |run| && m in ids && Direct(run, i, j)
    ensures Stamp(run, ids, i)[m] <= Stamp(run, ids, j)[m]
  {
    if run[i].node == run[j].node {
      ClockGrows(run, ids, i + 1, j + 1, run[i].node, m);
    }
  }

  /** What a clock knows of node m it learned from events: if node n's clock after t events counts event i, then i
      is one of n's first t events or happened before one of them. */
  lemma {:induction false} KnownIsPast(run: seq<Event>, ids: seq<int>, t: nat, n: int, i: nat)
    requires RunOk(run, ids) && t <= |run| && n in ids && i < |run|
    requires ClockAt(run, ids, t, n)[run[i].node] >= EventsOf(run, run[i].node, i + 1)
    ensures exists k: nat :: k < t && run[k].node == n && (i == k || Before(run, i, k))
    decreases t
  {
    var m := run[i].node;
    EntryBound(run, ids, t, n, m);
    if n == m {
      if t <= i {
        EventsGrow(run, m, t, i);
      }
      assert i < t;
    } else {
      var e := run[t - 1];
      if e.node != n || e.Send? || ClockAt(run, ids, t - 1, n)[m] >= EventsOf(run, m, i + 1) {
        KnownIsPast(run, ids, t - 1, n, i);
      } else {
        KnownIsPast(run, ids, e.sent + 1, run[e.sent].node, i);
        var k: nat :| k < e.sent + 1 && run[k].node == run[e.sent].node && (i == k || Before(run, i, k));
        StepsOn(run, i, k, e.sent);
        assert Direct(run, e.sent, t - 1);
        StepsOn(run, i, e.sent, t - 1);
      }
    }
  }

  lemma StepsOn(run: seq<Event>, i: nat, k: nat, j: nat)
    requires k < |run| && j < |run| && i < |run| && (i == k || Before(run, i, k))
    requires k == j || Direct(run, k, j)
    ensures i == j || Before(run, i, j)
  {
  }

  /** Fidge and Mattern: for distinct events, comparing their clocks decides which happened before the other. */
  lemma ClockCharacterisesCausality(run: seq<Event>, ids: seq<int>, i: nat, j: nat)
    requires RunOk(run, ids) && i < |run| && j < |run| && i != j
    ensures Before(run, i, j) <==> HappenedBefore(Stamp(run, ids, i), Stamp(run, ids, j))
  {
    var n, m := run[i].node, run[j].node;
    var a, b := Stamp(run, ids, i), Stamp(run, ids, j);
    EntryBound(run, ids, i + 1, n, n);
    EntryBound(run, ids, j + 1, m, m);
    if Before(run, i, j) {
      forall k | k in b
        ensures Get(a, k) <= Get(b, k)
      {
        StampGrows(run, ids, i, j, k);
      }
      StampGrows(run, ids, i, j, m);
      EntryBound(run, ids, i + 1, n, m);
      EventsGrow(run, m, i + 1, j);
      assert m in b && Get(a, m) < Get(b, m);
    }
    if HappenedBefore(a, b) {
      assert n in b;
      KnownIsPast(run, ids, j + 1, m, i);
      var k: nat :| k < j + 1 && run[k].node == m && (i == k || Before(run, i, k));
      StepsOn(run, i, k, j);
    }
  }

  /** `concurrent` holds exactly when neither event happened before the other. */
  lemma ConcurrentExactly(run: seq<Event>, ids: seq<int>, i: nat, j: nat)
    requires RunOk(run, ids) && i < |run| && j < |run| && i != j
    ensures Concurrent(Stamp(run, ids, i), Stamp(run, ids, j)) <==> !Before(run, i, j) && !Before(run, j, i)
  {
    ClockCharacterisesCausality(run, ids, i, j);
    ClockCharacterisesCausality(run, ids, j, i);
  }
}
