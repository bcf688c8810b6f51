/** In what order one call of try_deliver hands messages over: sweep by sweep, within a sweep by Lamport time, then by
    timestamp, then as they arrived. */
module DeliveryTurns {
  import opened Reorderer
  import opened CausalDelivery
  import opened DeliveryLimits
  import opened DeliveryOrder

  // ---- within a sweep ----

  ghost predicate InKeyOrder(out: seq<Held>) {
    forall i, j | 0 <= i < j < |out| :: NoLater(out[i].msg, out[j].msg)
  }

  lemma {:induction false} SortedSweepInOrder(d: Counters, ids: set<string>, held: seq<Held>, now: real, timeout: real)
    requires InKeyOrder(held)
    ensures var w := SweepOver(d, ids, held, now, timeout); InKeyOrder(w.out) && forall h <- w.out :: h in held
  {
    hide Ready, Mark;
    if held != [] {
      var rest, l := held[..|held| - 1], held[|held| - 1];
      SortedSweepInOrder(d, ids, rest, now, timeout);
      var w := SweepOver(d, ids, rest, now, timeout);
      forall h | h in w.out ensures NoLater(h.msg, l.msg) {
        var i :| 0 <= i < |rest| && rest[i] == h;
        assert held[i] == h;
      }
    }
  }

  /** One sweep hands messages over by Lamport time, then by timestamp. */
  lemma SweepInKeyOrder(s: State, now: real, timeout: real)
    ensures InKeyOrder(SweepOver(s.delivered, s.ids, SortByKey(s.buffer), now, timeout).out)
  {
    SortSorts(s.buffer);
    SortedSweepInOrder(s.delivered, s.ids, SortByKey(s.buffer), now, timeout);
  }

  /** No other message of the sender has the same number. */
  ghost predicate OwnNumber(held: seq<Held>, m: Message) {
    forall g <- held :: g.msg.sender == m.sender && SeqOf(g.msg) == SeqOf(m) ==> g.msg == m
  }

  /** Handing over another message leaves m ready. */
  lemma StaysReady(d: Counters, m: Message, g: Message)
    requires Ready(d, m) && Ready(d, g) && Keyed(m) && Keyed(g) && !(g.sender == m.sender && SeqOf(g) == SeqOf(m))
    ensures Ready(Mark(d, g), m)
  {
    assert m.clock[m.sender] == Seen(d, m.sender) + 1 && g.clock[g.sender] == Seen(d, g.sender) + 1;
    forall n | n in m.clock
      ensures if n == m.sender then m.clock[n] == Seen(Mark(d, g), n) + 1 else m.clock[n] <= Seen(Mark(d, g), n)
    {
    }
  }

  ghost predicate HandedOver(out: seq<Held>, m: Message) {
    exists k :: 0 <= k < |out| && out[k].msg == m
  }

  lemma VisitHands(w: Sweep, l: Held, now: real, timeout: real, m: Message)
    requires now - l.at < timeout && Ready(w.delivered, m) && Keyed(m) && Keyed(l.msg)
    requires l.msg.sender == m.sender && SeqOf(l.msg) == SeqOf(m) ==> l.msg == m
    ensures var v := Visit(w, l, now, timeout);
            (l.msg == m ==> HandedOver(v.out, m)) && (HandedOver(v.out, m) || Ready(v.delivered, m))
  {
    hide Ready, Mark;
    if Ready(w.delivered, l.msg) {
      assert Visit(w, l, now, timeout).out[|w.out|] == l;
      if l.msg != m {
        StaysReady(w.delivered, m, l.msg);
      }
    }
  }

  lemma HandedStays(w: Sweep, l: Held, now: real, timeout: real, m: Message)
    requires HandedOver(w.out, m)
    ensures HandedOver(Visit(w, l, now, timeout).out, m)
  {
    var k :| 0 <= k < |w.out| && w.out[k].msg == m;
    assert Visit(w, l, now, timeout).out[k] == w.out[k];
  }

  /** Without timeouts a message that is ready when a sweep begins is handed over by it. */
  lemma {:induction false} ReadyGoes(d: Counters, ids: set<string>, held: seq<Held>, now: real, timeout: real,
                                     m: Message)
    requires forall h <- held :: now - h.at < timeout && Keyed(h.msg)
    requires Ready(d, m) && Keyed(m) && OwnNumber(held, m)
    ensures var w := SweepOver(d, ids, held, now, timeout);
            && ((exists h <- held :: h.msg == m) ==> HandedOver(w.out, m))
            && (HandedOver(w.out, m) || Ready(w.delivered, m))
  {
    hide Ready, Visit, HandedOver, Keyed;
    if held != [] {
      var rest, l := held[..|held| - 1], held[|held| - 1];
      assert held == rest + [l];
      ReadyGoes(d, ids, rest, now, timeout, m);
      var v := SweepOver(d, ids, rest, now, timeout);
      if HandedOver(v.out, m) {
        HandedStays(v, l, now, timeout, m);
      } else {
        VisitHands(v, l, now, timeout, m);
      }
    }
  }

  lemma SortedMembers(s: seq<Held>, h: Held)
    ensures h in SortByKey(s) <==> h in s
  {
    assert h in multiset(SortByKey(s)) <==> h in multiset(s);
  }

  lemma SortedStill(s: seq<Held>, now: real, timeout: real, m: Message)
    requires (forall h <- s :: now - h.at < timeout && Keyed(h.msg)) && OwnNumber(s, m)
    ensures (forall h <- SortByKey(s) :: now - h.at < timeout && Keyed(h.msg)) && OwnNumber(SortByKey(s), m)
  {
    forall h | h in SortByKey(s) ensures h in s {
      SortedMembers(s, h);
    }
  }

  lemma ReadyGoesSorted(s: State, now: real, timeout: real, x: Held)
    requires forall h <- s.buffer :: now - h.at < timeout && Keyed(h.msg)
    requires x in s.buffer && Ready(s.delivered, x.msg) && OwnNumber(s.buffer, x.msg)
    ensures HandedOver(SweepOver(s.delivered, s.ids, SortByKey(s.buffer), now, timeout).out, x.msg)
  {
    hide Ready, Keyed, HandedOver, SortByKey, SweepOver;
    SortedStill(s.buffer, now, timeout, x.msg);
    SortedMembers(s.buffer, x);
    ReadyGoes(s.delivered, s.ids, SortByKey(s.buffer), now, timeout, x.msg);
  }

  /** What the first sweep hands over comes first. */
  lemma FirstSweepLeads(s: State, now: real, timeout: real)
    ensures SweepOver(s.delivered, s.ids, SortByKey(s.buffer), now, timeout).out <= Flush(s, now, timeout).1
  {
    hide SortByKey, SweepOver;
    SweepCounts(s.delivered, s.ids, SortByKey(s.buffer), now, timeout);
  }

  lemma PickInOrder(out: seq<Held>, x: Message, y: Message) returns (i: nat, j: nat)
    requires InKeyOrder(out) && HandedOver(out, x) && HandedOver(out, y) && !NoLater(y, x)
    ensures i < j < |out| && out[i].msg == x && out[j].msg == y
  {
    i :| 0 <= i < |out| && out[i].msg == x;
    j :| 0 <= j < |out| && out[j].msg == y;
  }

  /** Of two messages ready when try_deliver flushes, and without timeouts, the one with the smaller Lamport time is
      handed over first, and the timestamp decides between equal ones. The same holds of every later sweep, which begins
      from the state the sweep before it leaves. */
  lemma ReadyInKeyOrder(s: State, now: real, timeout: real, x: Held, y: Held) returns (i: nat, j: nat)
    requires (forall h <- s.buffer :: now - h.at < timeout && Keyed(h.msg)) && x in s.buffer && y in s.buffer
    requires Ready(s.delivered, x.msg) && OwnNumber(s.buffer, x.msg)
    requires Ready(s.delivered, y.msg) && OwnNumber(s.buffer, y.msg)
    requires x.msg.lamport < y.msg.lamport || (x.msg.lamport == y.msg.lamport && x.msg.timestamp < y.msg.timestamp)
    ensures i < j < |Flush(s, now, timeout).1|
    ensures Flush(s, now, timeout).1[i].msg == x.msg && Flush(s, now, timeout).1[j].msg == y.msg
  {
    hide Ready, Flush, Keyed, SortByKey, SweepOver, OwnNumber, HandedOver, InKeyOrder;
    ReadyGoesSorted(s, now, timeout, x);
    ReadyGoesSorted(s, now, timeout, y);
    SweepInKeyOrder(s, now, timeout);
    FirstSweepLeads(s, now, timeout);
    i, j := PickInOrder(SweepOver(s.delivered, s.ids, SortByKey(s.buffer), now, timeout).out, x.msg, y.msg);
  }

  // ---- messages that wait for the same one ----

  /** The first message of node n, after the first message of node 3. */
  predicate AfterThree(m: Message, n: int) {
    n != 3 && m.sender == n && m.clock == map[n := 1, 3 := 1]
  }

  lemma AfterThreeReady(d: Counters, m: Message, n: int)
    requires AfterThree(m, n)
    ensures Ready(d, m) <==> Seen(d, n) == 0 && 1 <= Seen(d, 3)
  {
    assert n in m.clock && 3 in m.clock;
  }

  lemma ThreeReady(p: Message)
    requires p.sender == 3 && p.clock == map[3 := 1]
    ensures Ready(map[], p) && Mark(map[], p) == map[3 := 1]
  {
  }

  lemma SweepReleases(hp: Held, f: Held, g: Held, a: int, b: int, timeout: real)
    requires hp.msg.sender == 3 && hp.msg.clock == map[3 := 1] && AfterThree(f.msg, a) && AfterThree(g.msg, b) && a != b
    requires timeout > 0.0
    ensures var w := SweepOver(map[], {}, [hp, f, g], 0.0, timeout); w.out == [hp, f, g] && w.kept == []
  {
    hide Ready, SweepOver;
    SweepNone(timeout);
    SweepAdds(map[], {}, [], hp, 0.0, timeout);
    SweepAdds(map[], {}, [hp], f, 0.0, timeout);
    SweepAdds(map[], {}, [hp, f], g, 0.0, timeout);
    ThreeReady(hp.msg);
    AfterThreeReady(map[3 := 1], f.msg, a);
    var d := Mark(map[3 := 1], f.msg);
    assert Seen(d, b) == 0 && Seen(d, 3) == 1;
    AfterThreeReady(d, g.msg, b);
    assert [] + [hp] == [hp] && [hp] + [f] == [hp, f] && [hp, f] + [g] == [hp, f, g];
  }

  lemma SweepNone(timeout: real)
    ensures SweepOver(map[], {}, [], 0.0, timeout) == Sweep(map[], {}, [], [])
  {
  }

  /** x and y as they lie in the buffer: the later one behind, and the one that arrived later behind when both have the
      same Lamport time and timestamp. */
  function Waiters(x: Message, y: Message): seq<Message> {
    if y.lamport < x.lamport || (y.lamport == x.lamport && y.timestamp < x.timestamp) then [y, x] else [x, y]
  }

  lemma ThirdReleases(f: Held, g: Held, hp: Held, timeout: real)
    requires timeout > 0.0 && hp.msg.sender == 3 && hp.msg.clock == map[3 := 1]
    requires AfterThree(f.msg, f.msg.sender) && AfterThree(g.msg, g.msg.sender) && f.msg.sender != g.msg.sender
    requires NoLater(f.msg, g.msg) && hp.msg.lamport < f.msg.lamport && hp.msg.lamport < g.msg.lamport
    ensures Flush(State(map[], {}, [f, g] + [hp]), 0.0, timeout).1 == [hp, f, g]
  {
    hide Flush, SortByKey, SweepOver, AfterThree, NoLater;
    assert [f, g] + [hp] == [f, g, hp];
    ThirdLeads(f, g, hp);
    SweepReleases(hp, f, g, f.msg.sender, g.msg.sender, timeout);
    FlushAll(State(map[], {}, [f, g, hp]), timeout);
  }

  /** Two messages that wait for a third come out after it by Lamport time, then by timestamp, then as they arrived,
      whatever their senders. */
  lemma WaitersComeInKeyOrder(x: Message, y: Message, p: Message, timeout: real)
    requires timeout > 0.0 && p.sender == 3 && p.clock == map[3 := 1]
    requires AfterThree(x, x.sender) && AfterThree(y, y.sender) && x.sender != y.sender
    requires p.lamport < x.lamport && p.lamport < y.lamport
    ensures Messages(Run(ArriveAt([x, y, p], 0.0), timeout).out) == [p] + Waiters(x, y)
  {
    hide Run, Flush, AfterThree;
    var two := Waiters(x, y);
    var f, g, hp := Held(two[0], 0.0), Held(two[1], 0.0), Held(p, 0.0);
    TwoWait(x, y, timeout);
    RunOn(ArriveAt([x, y], 0.0), Arrival(p, 0.0, 0.0), timeout);
    assert ArriveAt([x, y], 0.0) + [Arrival(p, 0.0, 0.0)] == ArriveAt([x, y, p], 0.0);
    ThirdReleases(f, g, hp, timeout);
    assert Run(ArriveAt([x, y, p], 0.0), timeout).out == [] + [hp, f, g];
  }

  /** A sweep that hands over everything is the whole flush. */
  lemma FlushAll(s: State, timeout: real)
    requires SweepOver(s.delivered, s.ids, SortByKey(s.buffer), 0.0, timeout).kept == []
    ensures Flush(s, 0.0, timeout).1 == SweepOver(s.delivered, s.ids, SortByKey(s.buffer), 0.0, timeout).out
  {
    hide SweepOver, SortByKey;
    var w := SweepOver(s.delivered, s.ids, SortByKey(s.buffer), 0.0, timeout);
    SweepCounts(s.delivered, s.ids, SortByKey(s.buffer), 0.0, timeout);
    NothingHeld(w.delivered, w.ids, 0.0, timeout);
    assert w.out + [] == w.out;
  }

  lemma ThirdLeads(f: Held, g: Held, p: Held)
    requires NoLater(f.msg, g.msg) && p.msg.lamport < f.msg.lamport && p.msg.lamport < g.msg.lamport
    ensures SortByKey([f, g, p]) == [p, f, g]
  {
    SortThirdFirst(f, g, p);
  }

  lemma RunOn(arrivals: seq<Arrival>, a: Arrival, timeout: real)
    ensures Run(arrivals + [a], timeout) == Arrive(Run(arrivals, timeout), a, timeout)
  {
    assert (arrivals + [a])[..|arrivals|] == arrivals;
  }

  lemma NotYet(m: Message, timeout: real)
    requires AfterThree(m, m.sender) && timeout > 0.0
    ensures !Ready(map[], m) && !TimedOut(Held(m, 0.0), 0.0, timeout)
  {
    AfterThreeReady(map[], m, m.sender);
  }

  lemma OneWaits(x: Message, timeout: real)
    requires timeout > 0.0 && AfterThree(x, x.sender)
    ensures Run(ArriveAt([x], 0.0), timeout) == World(State(map[], {}, [Held(x, 0.0)]), [], [Held(x, 0.0)])
  {
    hide Flush, Ready, AfterThree;
    assert ArriveAt([x], 0.0) == [] + [Arrival(x, 0.0, 0.0)];
    RunOn([], Arrival(x, 0.0, 0.0), timeout);
    SortOne(Held(x, 0.0));
    NotYet(x, timeout);
    assert [] + [Held(x, 0.0)] == [Held(x, 0.0)];
    FlushTakesNone(State(map[], {}, [Held(x, 0.0)]), 0.0, timeout);
  }

  lemma SortPair(f: Held, g: Held)
    ensures SortByKey([f, g]) ==
            if g.msg.lamport < f.msg.lamport || (g.msg.lamport == f.msg.lamport && g.msg.timestamp < f.msg.timestamp)
            then [g, f] else [f, g]
  {
    SortOne(f);
    assert [f, g][..1] == [f] && [f][..0] == [];
    assert Insert([], g) == [g];
  }

  lemma TwoWait(x: Message, y: Message, timeout: real)
    requires timeout > 0.0 && AfterThree(x, x.sender) && AfterThree(y, y.sender)
    ensures var w, two := Run(ArriveAt([x, y], 0.0), timeout), Waiters(x, y);
            w.state == State(map[], {}, [Held(two[0], 0.0), Held(two[1], 0.0)]) && w.out == []
  {
    hide Flush, Run, Ready, AfterThree, SortByKey;
    OneWaits(x, timeout);
    assert ArriveAt([x, y], 0.0) == ArriveAt([x], 0.0) + [Arrival(y, 0.0, 0.0)];
    RunOn(ArriveAt([x], 0.0), Arrival(y, 0.0, 0.0), timeout);
    var s := State(map[], {}, [Held(x, 0.0), Held(y, 0.0)]);
    assert [Held(x, 0.0)] + [Held(y, 0.0)] == s.buffer;
    SortPair(Held(x, 0.0), Held(y, 0.0));
    NotYet(x, timeout);
    NotYet(y, timeout);
    FlushTakesNone(s, 0.0, timeout);
  }
}
