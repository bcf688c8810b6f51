/** Runs of the reorder buffer with timeouts, in which the guarantees of runs without them fail. */
module DeliveryLimits {
  import opened Reorderer
  import opened CausalDelivery

  // ---- flushes that take or leave everything ----

  /** Held long enough, or naming nothing to wait for. */
  predicate Leaves(h: Held, now: real, timeout: real) {
    TimedOut(h, now, timeout) || h.msg.clock == map[]
  }

  lemma VisitTakes(w: Sweep, h: Held, now: real, timeout: real)
    requires Leaves(h, now, timeout)
    ensures Visit(w, h, now, timeout).out == w.out + [h] && Visit(w, h, now, timeout).kept == w.kept
  {
  }

  lemma {:induction false} SweepTakesAll(d: Counters, ids: set<string>, held: seq<Held>, now: real, timeout: real)
    requires forall k | 0 <= k < |held| :: Leaves(held[k], now, timeout)
    ensures var w := SweepOver(d, ids, held, now, timeout); w.out == held && w.kept == []
  {
    hide Visit, Leaves;
    if held != [] {
      var rest := held[..|held| - 1];
      SweepTakesAll(d, ids, rest, now, timeout);
      VisitTakes(SweepOver(d, ids, rest, now, timeout), held[|held| - 1], now, timeout);
      assert held == rest + [held[|held| - 1]];
    }
  }

  lemma FlushTakesAll(s: State, now: real, timeout: real)
    requires forall h <- SortByKey(s.buffer) :: Leaves(h, now, timeout)
    ensures Flush(s, now, timeout).1 == SortByKey(s.buffer) && Flush(s, now, timeout).0.buffer == []
  {
    hide SortByKey;
    var sorted := SortByKey(s.buffer);
    SweepTakesAll(s.delivered, s.ids, sorted, now, timeout);
    var w := SweepOver(s.delivered, s.ids, sorted, now, timeout);
    NothingHeld(w.delivered, w.ids, now, timeout);
    FlushRound(s, now, timeout, []);
    assert sorted + [] == sorted;
  }

  lemma {:induction false} SweepTakesNone(d: Counters, ids: set<string>, held: seq<Held>, now: real, timeout: real)
    requires forall k | 0 <= k < |held| :: !Ready(d, held[k].msg) && !TimedOut(held[k], now, timeout)
    ensures SweepOver(d, ids, held, now, timeout) == Sweep(d, ids, [], held)
  {
    if held != [] {
      SweepTakesNone(d, ids, held[..|held| - 1], now, timeout);
      assert held == held[..|held| - 1] + [held[|held| - 1]];
    }
  }

  lemma FlushTakesNone(s: State, now: real, timeout: real)
    requires forall h <- SortByKey(s.buffer) :: !Ready(s.delivered, h.msg) && !TimedOut(h, now, timeout)
    ensures Flush(s, now, timeout) == (s.(buffer := SortByKey(s.buffer)), [])
  {
    hide SortByKey;
    SweepTakesNone(s.delivered, s.ids, SortByKey(s.buffer), now, timeout);
    FlushRound(s, now, timeout, []);
  }

  // ---- small sorts ----

  lemma SortOne(a: Held)
    ensures SortByKey([a]) == [a]
  {
    assert [a][..0] == [];
    assert SortByKey([]) == [] && Insert([], a) == [a];
  }

  lemma SortTwo(a: Held, b: Held)
    requires KeyLeq(a, b)
    ensures SortByKey([a, b]) == [a, b]
  {
    SortOne(a);
    assert [a, b][..1] == [a];
  }

  /** A third message that belongs in front. */
  lemma SortThirdFirst(a: Held, b: Held, c: Held)
    requires KeyLeq(a, b) && !KeyLeq(a, c) && !KeyLeq(b, c)
    ensures SortByKey([a, b, c]) == [c, a, b]
  {
    SortTwo(a, b);
    assert [a, b, c][..2] == [a, b];
    assert [a, b][..1] == [a] && [a][..0] == [];
    assert Insert([], c) == [c];
    assert Insert([a], c) == [c] + [a];
    assert Insert([a, b], c) == [c, a] + [b];
  }

  // ---- the runs ----

  /** Numbers 1 and 2 of sender 1, and a message that names nothing, later than both. */
  const ONE := Message("a", 1, map[1 := 1], 0, 0.0)
  const TWO := Message("b", 1, map[1 := 2], 1, 1.0)
  const LATE := Message("c", 2, map[], 2, 2.0)
  const HELD_TWO := Held(TWO, 0.0)
  const HELD_LATE := Held(LATE, 1.0)
  const TIMEOUT := 1.0

  const OVERTAKING := [Arrival(TWO, 0.0, 0.0), Arrival(LATE, 1.0, 1.0)]
  const REPEATING := [Arrival(TWO, 0.0, 0.0), Arrival(TWO, 0.0, 0.0), Arrival(ONE, 0.0, 0.0), Arrival(LATE, 1.0, 1.0)]

  /** When a message that names only its own number is deliverable. */
  lemma TurnOf(d: Counters, m: Message, q: int)
    requires m.sender == 1 && m.clock == map[1 := q]
    ensures Ready(d, m) <==> q == Seen(d, 1) + 1
  {
    assert 1 in m.clock;
  }

  lemma RunNext(arrivals: seq<Arrival>, a: Arrival)
    ensures Run(arrivals + [a], TIMEOUT) == Arrive(Run(arrivals, TIMEOUT), a, TIMEOUT)
  {
    assert (arrivals + [a])[..|arrivals|] == arrivals;
  }

  lemma FirstTwo()
    ensures Run([Arrival(TWO, 0.0, 0.0)], TIMEOUT) == World(State(map[], {}, [HELD_TWO]), [], [HELD_TWO])
  {
    hide Flush;
    RunNext([], Arrival(TWO, 0.0, 0.0));
    SortOne(HELD_TWO);
    TurnOf(map[], TWO, 2);
    FlushTakesNone(State(map[], {}, [HELD_TWO]), 0.0, TIMEOUT);
    assert [] + [Arrival(TWO, 0.0, 0.0)] == [Arrival(TWO, 0.0, 0.0)];
    assert [] + [HELD_TWO] == [HELD_TWO];
  }

  lemma LateIsLater()
    ensures KeyLeq(HELD_TWO, HELD_LATE)
  {
  }

  /** A message forced out by its timeout overtakes: number 2 of sender 1 comes out although number 1 never did. */
  lemma TimeoutOvertakes()
    ensures var out := Run(OVERTAKING, TIMEOUT).out;
            |out| == 2 && out[0].msg == TWO && SeqOf(TWO) == 2 && forall h <- out :: h.msg != ONE
  {
    hide Flush, Run, SortByKey, Ready, KeyLeq;
    FirstTwo();
    LateIsLater();
    RunNext([Arrival(TWO, 0.0, 0.0)], Arrival(LATE, 1.0, 1.0));
    assert [Arrival(TWO, 0.0, 0.0)] + [Arrival(LATE, 1.0, 1.0)] == OVERTAKING;
    SortTwo(HELD_TWO, HELD_LATE);
    assert [HELD_TWO] + [HELD_LATE] == [HELD_TWO, HELD_LATE];
    FlushTakesAll(State(map[], {}, [HELD_TWO, HELD_LATE]), 1.0, TIMEOUT);
  }

  lemma CopyWaits()
    ensures Run(REPEATING[..2], TIMEOUT) == World(State(map[], {}, [HELD_TWO, HELD_TWO]), [], [HELD_TWO, HELD_TWO])
  {
    hide Flush, Run;
    FirstTwo();
    RunNext([Arrival(TWO, 0.0, 0.0)], Arrival(TWO, 0.0, 0.0));
    assert [Arrival(TWO, 0.0, 0.0)] + [Arrival(TWO, 0.0, 0.0)] == REPEATING[..2];
    SortTwo(HELD_TWO, HELD_TWO);
    TurnOf(map[], TWO, 2);
    assert [HELD_TWO] + [HELD_TWO] == [HELD_TWO, HELD_TWO];
    FlushTakesNone(State(map[], {}, [HELD_TWO, HELD_TWO]), 0.0, TIMEOUT);
  }

  lemma SweepAdds(d: Counters, ids: set<string>, held: seq<Held>, h: Held, now: real, timeout: real)
    ensures SweepOver(d, ids, held + [h], now, timeout) == Visit(SweepOver(d, ids, held, now, timeout), h, now, timeout)
  {
    assert (held + [h])[..|held|] == held;
  }

  lemma SweepReleasesOne()
    ensures var one := Held(ONE, 0.0);
            SweepOver(map[], {}, [one, HELD_TWO, HELD_TWO], 0.0, TIMEOUT) ==
              Sweep(map[1 := 2], {"a", "b"}, [one, HELD_TWO], [HELD_TWO])
  {
    hide SweepOver, Ready;
    var one := Held(ONE, 0.0);
    SweepTakesNone(map[], {}, [], 0.0, TIMEOUT);
    assert [] + [one] == [one] && [one] + [HELD_TWO] == [one, HELD_TWO];
    assert [one, HELD_TWO] + [HELD_TWO] == [one, HELD_TWO, HELD_TWO];
    TurnOf(map[], ONE, 1);
    SweepAdds(map[], {}, [], one, 0.0, TIMEOUT);
    assert SweepOver(map[], {}, [one], 0.0, TIMEOUT) == Sweep(map[1 := 1], {"a"}, [one], []);
    TurnOf(map[1 := 1], TWO, 2);
    SweepAdds(map[], {}, [one], HELD_TWO, 0.0, TIMEOUT);
    assert SweepOver(map[], {}, [one, HELD_TWO], 0.0, TIMEOUT) == Sweep(map[1 := 2], {"a", "b"}, [one, HELD_TWO], []);
    TurnOf(map[1 := 2], TWO, 2);
    SweepAdds(map[], {}, [one, HELD_TWO], HELD_TWO, 0.0, TIMEOUT);
  }

  /** Number 1 lets one copy of number 2 out; the other one stays. */
  lemma OneReleasesOneCopy()
    ensures var one := Held(ONE, 0.0);
            Flush(State(map[], {}, [HELD_TWO, HELD_TWO, one]), 0.0, TIMEOUT) ==
              (State(map[1 := 2], {"a", "b"}, [HELD_TWO]), [one, HELD_TWO])
  {
    hide Flush, SortByKey, SweepOver, Ready;
    var one := Held(ONE, 0.0);
    SortThirdFirst(HELD_TWO, HELD_TWO, one);
    SweepReleasesOne();
    FlushRound(State(map[], {}, [HELD_TWO, HELD_TWO, one]), 0.0, TIMEOUT, []);
    SortOne(HELD_TWO);
    TurnOf(map[1 := 2], TWO, 2);
    FlushTakesNone(State(map[1 := 2], {"a", "b"}, [HELD_TWO]), 0.0, TIMEOUT);
    var out := Flush(State(map[], {}, [HELD_TWO, HELD_TWO, one]), 0.0, TIMEOUT).1;
    assert [] + out == out && [] + [one, HELD_TWO] + [] == [one, HELD_TWO];
  }

  lemma CopyStays()
    ensures var w := Run(REPEATING[..3], TIMEOUT);
            w.out == [Held(ONE, 0.0), HELD_TWO] && w.state == State(map[1 := 2], {"a", "b"}, [HELD_TWO])
  {
    hide Flush, Run;
    CopyWaits();
    RunNext(REPEATING[..2], Arrival(ONE, 0.0, 0.0));
    assert REPEATING[..2] + [Arrival(ONE, 0.0, 0.0)] == REPEATING[..3];
    assert [HELD_TWO, HELD_TWO] + [Held(ONE, 0.0)] == [HELD_TWO, HELD_TWO, Held(ONE, 0.0)];
    OneReleasesOneCopy();
  }

  /** A copy that arrives while the first is buffered comes out a second time when its timeout is over. */
  lemma TimeoutRepeats()
    ensures var out := Run(REPEATING, TIMEOUT).out;
            |out| == 4 && out[1].msg == TWO && out[2].msg == TWO && out[0].msg == ONE && out[3].msg == LATE
  {
    hide Flush, Run;
    CopyStays();
    RunNext(REPEATING[..3], Arrival(LATE, 1.0, 1.0));
    assert REPEATING[..3] + [Arrival(LATE, 1.0, 1.0)] == REPEATING;
    assert [HELD_TWO] + [HELD_LATE] == [HELD_TWO, HELD_LATE];
    SortTwo(HELD_TWO, HELD_LATE);
    FlushTakesAll(State(map[1 := 2], {"a", "b"}, [HELD_TWO, HELD_LATE]), 1.0, TIMEOUT);
  }
}
