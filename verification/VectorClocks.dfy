/** The vector clock of node/replication.py and its comparison of two snapshots. */
module VectorClocks {
  type Clock = map<int, int>

  function Get(c: Clock, k: int): int {
    if k in c then c[k] else 0
  }

  function Zero(ids: seq<int>): (c: Clock)
    ensures c.Keys == (set k | k in ids) && forall k <- c :: c[k] == 0
  {
    if ids == [] then map[] else Zero(ids[..|ids| - 1])[ids[|ids| - 1] := 0]
  }

  function Ticked(c: Clock, me: int): Clock
    requires me in c
  {
    c[me := c[me] + 1]
  }

  function Max(a: int, b: int): int {
    if a > b then a else b
  }

  function Joined(c: Clock, received: Clock): Clock {
    map k | k in c.Keys + received.Keys :: if k in received then Max(Get(c, k), received[k]) else c[k]
  }

  lemma Nonempty(s: set<int>)
    requires s != {}
    ensures exists k :: k in s
  {
    assert (forall k :: k !in s) ==> s == {};
  }

  lemma JoinOneMore(c: Clock, received: Clock, left: set<int>, k: int)
    requires k in left && k in received
    ensures var was := Joined(c, received - left);
      Joined(c, received - (left - {k})) == was[k := Max(Get(was, k), received[k])]
  {
  }

  function Updated(c: Clock, me: int, received: Clock): Clock
    requires me in c || me in received
  {
    Ticked(Joined(c, received), me)
  }

  /** The static comparison: it looks only at the keys of the second clock. */
  predicate HappenedBefore(a: Clock, b: Clock) {
    (forall k <- b :: Get(a, k) <= Get(b, k)) && exists k :: k in b && Get(a, k) < Get(b, k)
  }

  predicate Concurrent(a: Clock, b: Clock) {
    !HappenedBefore(a, b) && !HappenedBefore(b, a)
  }

  // ---- the class ----

  class VectorClock {
    const nodeId: int
    var clock: Clock

    constructor (nodeId: int, allNodeIds: seq<int>)
      ensures this.nodeId == nodeId && clock == Zero(allNodeIds)
    {
      this.nodeId := nodeId;
      clock := Zero(allNodeIds);
    }

    method Tick() returns (snapshot: Clock)
      requires nodeId in clock
      modifies this
      ensures clock == Ticked(old(clock), nodeId) && snapshot == clock
    {
      clock := clock[nodeId := clock[nodeId] + 1];
      snapshot := clock;
    }

    method Update(received: Clock) returns (snapshot: Clock)
      requires nodeId in clock || nodeId in received
      modifies this
      ensures clock == Updated(old(clock), nodeId, received) && snapshot == clock
    {
      var left := received.Keys;
      while left != {}
        invariant left <= received.Keys
        invariant clock == Joined(old(clock), received - left)
        decreases left
      {
        hide Joined;
        Nonempty(left);
        var k :| k in left;
        JoinOneMore(old(clock), received, left, k);
        clock := clock[k := Max(Get(clock, k), received[k])];
        left := left - {k};
      }
      assert received - left == received;
      clock := clock[nodeId := clock[nodeId] + 1];
      snapshot := clock;
    }
  }

  // ---- clocks over different node sets ----

  /** The order the comparison documents: no greater in any position, less in at least one. */
  ghost predicate Precedes(a: Clock, b: Clock) {
    (forall k :: Get(a, k) <= Get(b, k)) && exists k :: Get(a, k) < Get(b, k)
  }

  /** The documented order holds exactly when the comparison says so and the first clock has no positive
      entry that the second lacks. */
  lemma PrecedesIff(a: Clock, b: Clock)
    requires (forall k <- a :: a[k] >= 0) && forall k <- b :: b[k] >= 0
    ensures Precedes(a, b) <==> HappenedBefore(a, b) && forall k <- a :: k !in b ==> a[k] == 0
  {
    if HappenedBefore(a, b) && forall k <- a :: k !in b ==> a[k] == 0 {
      var k :| k in b && Get(a, k) < Get(b, k);
      assert Get(a, k) < Get(b, k);
    }
    if Precedes(a, b) {
      forall k | k in a && k !in b
        ensures a[k] == 0
      {
        assert Get(a, k) <= Get(b, k);
      }
      var k :| Get(a, k) < Get(b, k);
      assert k in b;
    }
  }

  /** A clock of the node set `ids`. */
  predicate ClockOf(b: Clock, ids: set<int>) {
    b.Keys == ids && forall k <- b :: b[k] >= 0
  }

  /** The comparison of a with the clocks of a node set meets its documentation, for all of them, if and only if a
      has no positive entry outside the set (or the set is empty). */
  lemma DocumentedOrderIff(a: Clock, ids: set<int>)
    requires forall k <- a :: a[k] >= 0
    ensures (forall b :: ClockOf(b, ids) ==> (HappenedBefore(a, b) <==> Precedes(a, b)))
      <==> ids == {} || forall k <- a :: k !in ids ==> a[k] == 0
  {
    if ids == {} || forall k <- a :: k !in ids ==> a[k] == 0 {
      forall b | ClockOf(b, ids)
        ensures HappenedBefore(a, b) <==> Precedes(a, b)
      {
        PrecedesIff(a, b);
      }
    } else {
      var b := map k | k in ids :: Get(a, k) + 1;
      Nonempty(ids);
      var k :| k in ids;
      assert Get(a, k) < Get(b, k);
      PrecedesIff(a, b);
      assert ClockOf(b, ids);
    }
  }

  /** Over different node sets, each of two clocks can be reported as before the other. */
  lemma BothWays()
    ensures HappenedBefore(map[1 := 1], map[2 := 1]) && HappenedBefore(map[2 := 1], map[1 := 1])
  {
    assert Get(map[1 := 1], 2) < Get(map[2 := 1], 2);
    assert Get(map[2 := 1], 1) < Get(map[1 := 1], 1);
  }
}
