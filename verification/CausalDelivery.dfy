/** What the reorder buffer guarantees over whole runs: conservation, a reason for everything handed over, and, without
    timeouts, causal order. */
module CausalDelivery {
  import opened Reorderer

  // ---- the record of what was handed over ----

  /** Counters after handing over `out`, starting from none. */
  function Tally(out: seq<Held>): Counters {
    if out == [] then map[] else Mark(Tally(out[..|out| - 1]), out[|out| - 1].msg)
  }

  /** Every message was ready when its turn came. */
  ghost predicate InTurn(out: seq<Held>) {
    forall k | 0 <= k < |out| :: Ready(Tally(out[..k]), out[k].msg)
  }

  ghost function Ids(out: seq<Held>): set<string> {
    set h | h in out :: h.msg.id
  }

  // ---- a run ----

  datatype Arrival = Arrival(msg: Message, at: real, now: real)

  /** The buffer, everything handed over, and every arrival that was not dropped as a duplicate. */
  datatype World = World(state: State, out: seq<Held>, accepted: seq<Held>)

  function Arrive(w: World, a: Arrival, timeout: real): World {
    var (s, out) := TryDeliver(w.state, a.msg, a.at, a.now, timeout);
    World(s, w.out + out, if a.msg.id in w.state.ids then w.accepted else w.accepted + [Held(a.msg, a.at)])
  }

  function Run(arrivals: seq<Arrival>, timeout: real): World {
    if arrivals == [] then World(State(map[], {}, []), [], [])
    else Arrive(Run(arrivals[..|arrivals| - 1], timeout), arrivals[|arrivals| - 1], timeout)
  }

  // ---- conservation ----

  /** Counters and ids are those of the messages handed over; nothing is lost or invented. */
  ghost predicate Balanced(w: World) {
    && w.state.delivered == Tally(w.out)
    && w.state.ids == Ids(w.out)
    && multiset(w.accepted) == multiset(w.out) + multiset(w.state.buffer)
  }

  lemma TallyAppend(a: seq<Held>, h: Held)
    ensures Tally(a + [h]) == Mark(Tally(a), h.msg) && Ids(a + [h]) == Ids(a) + {h.msg.id}
  {
    assert (a + [h])[..|a|] == a;
  }

  /** A sweep, seen as the continuation of what was handed over before. */
  lemma {:induction false} SweepBalanced(out: seq<Held>, held: seq<Held>, now: real, timeout: real)
    ensures var w := SweepOver(Tally(out), Ids(out), held, now, timeout);
            && w.delivered == Tally(out + w.out) && w.ids == Ids(out + w.out)
            && multiset(held) == multiset(w.out) + multiset(w.kept)
  {
    hide Tally, Ids, Ready, Mark;
    if held == [] {
      assert out + [] == out;
    } else {
      var rest, h := held[..|held| - 1], held[|held| - 1];
      SweepBalanced(out, rest, now, timeout);
      var v := SweepOver(Tally(out), Ids(out), rest, now, timeout);
      TallyAppend(out + v.out, h);
      assert out + (v.out + [h]) == (out + v.out) + [h];
      assert held == rest + [h];
    }
  }

  lemma {:induction false} FlushBalanced(out: seq<Held>, buffer: seq<Held>, now: real, timeout: real)
    ensures var (s, more) := Flush(State(Tally(out), Ids(out), buffer), now, timeout);
            && s.delivered == Tally(out + more) && s.ids == Ids(out + more)
            && multiset(buffer) == multiset(more) + multiset(s.buffer)
    decreases |buffer|
  {
    hide Tally, Ids, SweepOver, SortByKey;
    var sorted := SortByKey(buffer);
    SweepBalanced(out, sorted, now, timeout);
    SweepCounts(Tally(out), Ids(out), sorted, now, timeout);
    var w := SweepOver(Tally(out), Ids(out), sorted, now, timeout);
    if w.out == [] {
      assert out + [] == out;
    } else {
      FlushBalanced(out + w.out, w.kept, now, timeout);
      var (s, more) := Flush(State(w.delivered, w.ids, w.kept), now, timeout);
      assert multiset(w.out + more) == multiset(w.out) + multiset(more);
      assert multiset(buffer) == multiset(w.out) + (multiset(more) + multiset(s.buffer));
      assert out + (w.out + more) == (out + w.out) + more;
    }
  }

  /** Conservation, timeouts included: in every run what was accepted is what was handed over plus
      what is still buffered, and the counters are those of the messages handed over. */
  lemma {:induction false} RunBalanced(arrivals: seq<Arrival>, timeout: real)
    ensures Balanced(Run(arrivals, timeout))
  {
    hide Balanced, Arrive;
    if arrivals == [] {
      NoTally();
    } else {
      RunBalanced(arrivals[..|arrivals| - 1], timeout);
      ArriveBalanced(Run(arrivals[..|arrivals| - 1], timeout), arrivals[|arrivals| - 1], timeout);
    }
  }

  lemma ArriveBalanced(w: World, a: Arrival, timeout: real)
    requires Balanced(w)
    ensures Balanced(Arrive(w, a, timeout))
  {
    hide Tally, Ids, Flush;
    if a.msg.id in w.state.ids {
      assert w.out + [] == w.out;
    } else {
      var h := Held(a.msg, a.at);
      FlushBalanced(w.out, w.state.buffer + [h], a.now, timeout);
      var (s, more) := Flush(State(Tally(w.out), Ids(w.out), w.state.buffer + [h]), a.now, timeout);
      assert multiset(w.out + more) == multiset(w.out) + multiset(more);
      assert multiset(w.state.buffer + [h]) == multiset(w.state.buffer) + multiset{h};
      assert multiset(w.accepted + [h]) == multiset(w.accepted) + multiset{h};
      assert w.state.(buffer := w.state.buffer + [h]) == State(Tally(w.out), Ids(w.out), w.state.buffer + [h]);
      assert multiset(w.accepted + [h]) == multiset(w.out) + (multiset(w.state.buffer) + multiset{h});
    }
  }

  lemma NoTally()
    ensures Balanced(World(State(map[], {}, []), [], []))
  {
  }

  /** A sender's counter is the largest sequence number handed over, or 0. */
  lemma {:induction false} CounterIsMaximum(out: seq<Held>, n: int)
    ensures Seen(Tally(out), n) >= 0
    ensures forall h | h in out && h.msg.sender == n :: SeqOf(h.msg) <= Seen(Tally(out), n)
    ensures Seen(Tally(out), n) > 0 ==>
      exists h :: h in out && h.msg.sender == n && SeqOf(h.msg) == Seen(Tally(out), n)
  {
    if out != [] {
      var rest, l := out[..|out| - 1], out[|out| - 1];
      CounterIsMaximum(rest, n);
      assert out == rest + [l];
      if Seen(Tally(out), n) > 0 {
        if l.msg.sender == n && SeqOf(l.msg) > Seen(Tally(rest), n) {
          assert l in out;
        } else {
          var h :| h in rest && h.msg.sender == n && SeqOf(h.msg) == Seen(Tally(rest), n);
          assert h in out;
        }
      }
    }
  }

  // ---- fixpoint ----

  ghost predicate Stuck(s: State, now: real, timeout: real) {
    forall k | 0 <= k < |s.buffer| ::
      !Ready(s.delivered, s.buffer[k].msg) && now - s.buffer[k].at < timeout
  }

  lemma {:induction false} EmptySweep(d: Counters, ids: set<string>, held: seq<Held>, now: real, timeout: real)
    requires SweepOver(d, ids, held, now, timeout).out == []
    ensures var w := SweepOver(d, ids, held, now, timeout);
            w == Sweep(d, ids, [], held) && Stuck(State(d, ids, held), now, timeout)
  {
    if held != [] {
      EmptySweep(d, ids, held[..|held| - 1], now, timeout);
      assert held == held[..|held| - 1] + [held[|held| - 1]];
    }
  }

  /** After a flush nothing in the buffer is deliverable or past its timeout. */
  lemma {:induction false} FlushStuck(s: State, now: real, timeout: real)
    ensures Stuck(Flush(s, now, timeout).0, now, timeout)
    decreases |s.buffer|
  {
    var sorted := SortByKey(s.buffer);
    SweepCounts(s.delivered, s.ids, sorted, now, timeout);
    var w := SweepOver(s.delivered, s.ids, sorted, now, timeout);
    if w.out == [] {
      EmptySweep(s.delivered, s.ids, sorted, now, timeout);
    } else {
      FlushStuck(State(w.delivered, w.ids, w.kept), now, timeout);
    }
  }

  /** An empty buffer stays empty. */
  lemma NothingHeld(d: Counters, ids: set<string>, now: real, timeout: real)
    ensures Flush(State(d, ids, []), now, timeout) == (State(d, ids, []), [])
  {
    assert SortByKey([]) == [];
    assert SweepOver(d, ids, [], now, timeout) == Sweep(d, ids, [], []);
  }

  // ---- why a message is handed over ----

  /** From position n on, every message was deliverable at its turn or had been held for the whole timeout. */
  ghost predicate Justified(out: seq<Held>, n: nat, now: real, timeout: real) {
    forall k | n <= k < |out| :: Ready(Tally(out[..k]), out[k].msg) || now - out[k].at >= timeout
  }

  lemma JustifiedAppend(out: seq<Held>, n: nat, h: Held, now: real, timeout: real)
    requires Justified(out, n, now, timeout) && (Ready(Tally(out), h.msg) || now - h.at >= timeout)
    ensures Justified(out + [h], n, now, timeout)
  {
    hide Tally, Ready;
    forall k | n <= k < |out| + 1
      ensures Ready(Tally((out + [h])[..k]), (out + [h])[k].msg) || now - (out + [h])[k].at >= timeout
    {
      assert (out + [h])[..k] == out[..k];
      assert out[..|out|] == out;
    }
  }

  lemma JustifiedJoin(out: seq<Held>, a: seq<Held>, b: seq<Held>, now: real, timeout: real)
    requires Justified(out + a, |out|, now, timeout) && Justified((out + a) + b, |out + a|, now, timeout)
    ensures Justified(out + (a + b), |out|, now, timeout)
  {
    hide Tally, Ready;
    assert out + (a + b) == (out + a) + b;
    forall k | |out| <= k < |out + a|
      ensures Ready(Tally((out + a + b)[..k]), (out + a + b)[k].msg) || now - (out + a + b)[k].at >= timeout
    {
      assert (out + a + b)[..k] == (out + a)[..k];
    }
  }

  lemma {:induction false} SweepJustified(out: seq<Held>, held: seq<Held>, now: real, timeout: real)
    ensures Justified(out + SweepOver(Tally(out), Ids(out), held, now, timeout).out, |out|, now, timeout)
  {
    hide Tally, Ids, Ready, Justified;
    if held == [] {
      assert out + [] == out;
      NoneJustified(out, now, timeout);
    } else {
      var rest, h := held[..|held| - 1], held[|held| - 1];
      SweepJustified(out, rest, now, timeout);
      SweepBalanced(out, rest, now, timeout);
      var v := SweepOver(Tally(out), Ids(out), rest, now, timeout);
      if Ready(v.delivered, h.msg) || TimedOut(h, now, timeout) {
        JustifiedAppend(out + v.out, |out|, h, now, timeout);
        assert out + (v.out + [h]) == (out + v.out) + [h];
      }
    }
  }

  lemma NoneJustified(out: seq<Held>, now: real, timeout: real)
    ensures Justified(out, |out|, now, timeout)
  {
  }

  /** A flush hands over a message only at its causal turn or after its timeout, whatever the state it starts from. */
  lemma {:induction false} FlushJustified(out: seq<Held>, buffer: seq<Held>, now: real, timeout: real)
    ensures Justified(out + Flush(State(Tally(out), Ids(out), buffer), now, timeout).1, |out|, now, timeout)
    decreases |buffer|
  {
    hide Tally, Ids, Justified, SweepOver;
    var sorted := SortByKey(buffer);
    SweepJustified(out, sorted, now, timeout);
    SweepBalanced(out, sorted, now, timeout);
    SweepCounts(Tally(out), Ids(out), sorted, now, timeout);
    var w := SweepOver(Tally(out), Ids(out), sorted, now, timeout);
    if w.out != [] {
      FlushJustified(out + w.out, w.kept, now, timeout);
      JustifiedJoin(out, w.out, Flush(State(w.delivered, w.ids, w.kept), now, timeout).1, now, timeout);
    }
  }

  /** In every run, timeouts included, the messages handed over on an arrival were each deliverable at their turn or
      had been held for the whole timeout. */
  lemma ArrivalJustified(arrivals: seq<Arrival>, timeout: real)
    requires arrivals != []
    ensures var before := Run(arrivals[..|arrivals| - 1], timeout);
            before.out <= Run(arrivals, timeout).out &&
            Justified(Run(arrivals, timeout).out, |before.out|, arrivals[|arrivals| - 1].now, timeout)
  {
    hide Tally, Ids, Justified, Flush;
    var w, a := Run(arrivals[..|arrivals| - 1], timeout), arrivals[|arrivals| - 1];
    RunBalanced(arrivals[..|arrivals| - 1], timeout);
    NoneJustified(w.out, a.now, timeout);
    if a.msg.id in w.state.ids {
      assert w.out + [] == w.out;
    } else {
      var buffer := w.state.buffer + [Held(a.msg, a.at)];
      FlushJustified(w.out, buffer, a.now, timeout);
      assert w.state.(buffer := buffer) == State(Tally(w.out), Ids(w.out), buffer);
    }
  }

  /** The message carries its sender's own sequence number. */
  predicate Keyed(m: Message) {
    m.sender in m.clock
  }

  /** Arrival a is the one on which the k-th message was handed over. */
  ghost predicate HandedOn(arrivals: seq<Arrival>, timeout: real, k: nat, a: nat) {
    a < |arrivals| && |Run(arrivals[..a], timeout).out| <= k < |Run(arrivals[..a + 1], timeout).out|
  }

  /** The same for each message of the run: the arrival on which it was handed over, and why. */
  lemma {:induction false} HandingJustified(arrivals: seq<Arrival>, timeout: real, k: nat) returns (a: nat)
    requires k < |Run(arrivals, timeout).out|
    ensures HandedOn(arrivals, timeout, k, a)
    ensures var out := Run(arrivals, timeout).out;
            Ready(Tally(out[..k]), out[k].msg) || arrivals[a].now - out[k].at >= timeout
  {
    hide Arrive, Tally, Ready;
    var before := arrivals[..|arrivals| - 1];
    ArrivalJustified(arrivals, timeout);
    if k < |Run(before, timeout).out| {
      a := HandingJustified(before, timeout, k);
      assert before[..a] == arrivals[..a] && before[..a + 1] == arrivals[..a + 1];
      assert Run(before, timeout).out[..k] == Run(arrivals, timeout).out[..k];
    } else {
      a := |arrivals| - 1;
      assert arrivals[..a + 1] == arrivals;
    }
  }

  /** A second copy is handed over only by its timeout: in every run, if a message that carries its sender's key comes
      out again, that copy had been held for the whole timeout when it did. */
  lemma RepeatTimedOut(arrivals: seq<Arrival>, timeout: real, j: nat, k: nat) returns (a: nat)
    requires j < k < |Run(arrivals, timeout).out| && Keyed(Run(arrivals, timeout).out[k].msg)
    requires Run(arrivals, timeout).out[j].msg == Run(arrivals, timeout).out[k].msg
    ensures HandedOn(arrivals, timeout, k, a)
    ensures arrivals[a].now - Run(arrivals, timeout).out[k].at >= timeout
  {
    hide Run;
    var out := Run(arrivals, timeout).out;
    a := HandingJustified(arrivals, timeout, k);
    assert out[..k][j] == out[j] && out[j] in out[..k];
    CounterIsMaximum(out[..k], out[k].msg.sender);
  }

  // ---- causal order ----

  /** The run is over before anything buffered times out. */
  ghost predicate Quick(arrivals: seq<Arrival>, timeout: real) {
    forall i, j | 0 <= i <= j < |arrivals| :: arrivals[j].now - arrivals[i].at < timeout
  }

  /** What a flush hands over or keeps, it had. */
  lemma FlushKeeps(out: seq<Held>, buffer: seq<Held>, now: real, timeout: real)
    ensures var (s, more) := Flush(State(Tally(out), Ids(out), buffer), now, timeout);
            (forall h | h in more :: h in buffer) && forall h | h in s.buffer :: h in buffer
  {
    hide Tally, Ids, Flush;
    FlushBalanced(out, buffer, now, timeout);
    var (s, more) := Flush(State(Tally(out), Ids(out), buffer), now, timeout);
    forall h | h in more || h in s.buffer ensures h in buffer {
      assert h in multiset(more) || h in multiset(s.buffer);
      assert h in multiset(buffer);
    }
  }

  /** What was handed over without a timeout was handed over in turn. */
  lemma JustifiedInTurn(out: seq<Held>, more: seq<Held>, now: real, timeout: real)
    requires InTurn(out) && Justified(out + more, |out|, now, timeout)
    requires forall h | h in more :: !TimedOut(h, now, timeout)
    ensures InTurn(out + more)
  {
    hide Tally, Ready;
    forall k | 0 <= k < |out + more| ensures Ready(Tally((out + more)[..k]), (out + more)[k].msg) {
      if k < |out| {
        assert (out + more)[..k] == out[..k];
      } else {
        assert (out + more)[k] in more;
      }
    }
  }

  /** h is the i-th arrival, stamped. */
  ghost predicate Came(arrivals: seq<Arrival>, h: Held) {
    exists i | 0 <= i < |arrivals| :: h == Held(arrivals[i].msg, arrivals[i].at)
  }

  lemma CameLater(arrivals: seq<Arrival>, n: nat, h: Held)
    requires n <= |arrivals| && Came(arrivals[..n], h)
    ensures Came(arrivals, h)
  {
    var i :| 0 <= i < n && h == Held(arrivals[..n][i].msg, arrivals[..n][i].at);
    assert arrivals[..n][i] == arrivals[i];
  }

  /** In a run without timeouts every message is handed over in turn, and nothing left is ready. */
  lemma {:induction false} QuickRun(arrivals: seq<Arrival>, timeout: real)
    requires Quick(arrivals, timeout)
    ensures var w := Run(arrivals, timeout);
            && InTurn(w.out) && (forall h | h in w.state.buffer :: Came(arrivals, h))
            && forall h | h in w.state.buffer :: !Ready(w.state.delivered, h.msg)
  {
    hide Tally, Ids, InTurn, Flush, Ready, Justified;
    if arrivals == [] {
      NoneInTurn();
    } else {
      var n := |arrivals| - 1;
      var w, a := Run(arrivals[..n], timeout), arrivals[n];
      QuickRun(arrivals[..n], timeout);
      RunBalanced(arrivals[..n], timeout);
      forall h | h in w.state.buffer ensures Came(arrivals, h) {
        CameLater(arrivals, n, h);
      }
      if a.msg.id in w.state.ids {
        assert w.out + [] == w.out;
      } else {
        var buffer := w.state.buffer + [Held(a.msg, a.at)];
        var s := w.state.(buffer := buffer);
        forall k | 0 <= k < |buffer| ensures Came(arrivals, buffer[k]) && !TimedOut(buffer[k], a.now, timeout) {
          assert k == |w.state.buffer| ==> buffer[k] == Held(arrivals[n].msg, arrivals[n].at);
          assert k < |w.state.buffer| ==> buffer[k] in w.state.buffer;
          assert Came(arrivals, buffer[k]);
          var i :| 0 <= i < |arrivals| && buffer[k] == Held(arrivals[i].msg, arrivals[i].at);
          assert arrivals[n].now - arrivals[i].at < timeout;
        }
        assert s == State(Tally(w.out), Ids(w.out), buffer);
        FlushKeeps(w.out, buffer, a.now, timeout);
        FlushJustified(w.out, buffer, a.now, timeout);
        JustifiedInTurn(w.out, Flush(s, a.now, timeout).1, a.now, timeout);
        FlushStuck(s, a.now, timeout);
      }
    }
  }

  lemma NoneInTurn()
    ensures InTurn([])
  {
  }

  // ---- what in turn means ----

  ghost predicate AllKeyed(out: seq<Held>) {
    forall h | h in out :: Keyed(h.msg)
  }

  function Count(out: seq<Held>, n: int): nat {
    if out == [] then 0 else
    Count(out[..|out| - 1], n) + (if out[|out| - 1].msg.sender == n then 1 else 0)
  }

  lemma InTurnPrefix(out: seq<Held>, k: nat)
    requires InTurn(out) && AllKeyed(out) && k <= |out|
    ensures InTurn(out[..k]) && AllKeyed(out[..k])
  {
    forall j | 0 <= j < k ensures Ready(Tally(out[..k][..j]), out[..k][j].msg) {
      assert out[..k][..j] == out[..j];
    }
  }

  lemma {:induction false} TallyIsCount(out: seq<Held>, n: int)
    requires InTurn(out) && AllKeyed(out)
    ensures Seen(Tally(out), n) == Count(out, n)
  {
    if out != [] {
      var k := |out| - 1;
      InTurnPrefix(out, k);
      TallyIsCount(out[..k], n);
      assert out[k] in out && Ready(Tally(out[..k]), out[k].msg);
    }
  }

  /** The k-th message handed over has the next number of its sender. */
  lemma NumbersInOrder(out: seq<Held>, k: nat)
    requires InTurn(out) && AllKeyed(out) && k < |out|
    ensures SeqOf(out[k].msg) == Count(out[..k], out[k].msg.sender) + 1
  {
    InTurnPrefix(out, k);
    TallyIsCount(out[..k], out[k].msg.sender);
    assert out[k] in out && Ready(Tally(out[..k]), out[k].msg);
  }

  ghost predicate HandedBefore(out: seq<Held>, k: nat, n: int, q: int)
    requires k <= |out|
  {
    exists j | 0 <= j < k :: out[j].msg.sender == n && SeqOf(out[j].msg) == q
  }

  lemma {:induction false} EveryNumberHanded(out: seq<Held>, k: nat, n: int, q: int)
    requires InTurn(out) && AllKeyed(out) && k <= |out| && 1 <= q <= Count(out[..k], n)
    ensures HandedBefore(out, k, n, q)
  {
    assert out[..k][..k - 1] == out[..k - 1];
    if out[k - 1].msg.sender == n && q == Count(out[..k], n) {
      NumbersInOrder(out, k - 1);
    } else {
      EveryNumberHanded(out, k - 1, n, q);
    }
  }

  lemma {:induction false} CountGrows(out: seq<Held>, j: nat, k: nat, n: int)
    requires j <= k <= |out|
    ensures Count(out[..j], n) <= Count(out[..k], n)
    ensures j < k && out[j].msg.sender == n ==> Count(out[..j], n) < Count(out[..k], n)
  {
    if j < k {
      assert out[..k][..k - 1] == out[..k - 1];
      CountGrows(out, j, k - 1, n);
    }
  }

  lemma OutKeyed(arrivals: seq<Arrival>, timeout: real)
    requires forall a | a in arrivals :: Keyed(a.msg)
    ensures AllKeyed(Run(arrivals, timeout).out)
  {
    var w := Run(arrivals, timeout);
    forall h | h in w.out ensures Keyed(h.msg) {
      OutCame(arrivals, timeout, h);
      var i :| 0 <= i < |arrivals| && h == Held(arrivals[i].msg, arrivals[i].at);
      assert arrivals[i] in arrivals;
    }
  }

  lemma OutCame(arrivals: seq<Arrival>, timeout: real, h: Held)
    requires h in Run(arrivals, timeout).out || h in Run(arrivals, timeout).state.buffer
    ensures Came(arrivals, h)
  {
    hide Run, Came;
    RunBalanced(arrivals, timeout);
    var w := Run(arrivals, timeout);
    assert h in multiset(w.out) || h in multiset(w.state.buffer);
    assert h in multiset(w.accepted);
    AcceptedCame(arrivals, timeout, h);
  }

  lemma {:induction false} AcceptedCame(arrivals: seq<Arrival>, timeout: real, h: Held)
    requires h in Run(arrivals, timeout).accepted
    ensures Came(arrivals, h)
  {
    var n := |arrivals| - 1;
    if h in Run(arrivals[..n], timeout).accepted {
      AcceptedCame(arrivals[..n], timeout, h);
      CameLater(arrivals, n, h);
    } else {
      assert h == Held(arrivals[n].msg, arrivals[n].at);
    }
  }

  /** What a clock names from another node has been handed over before. */
  lemma NamedBefore(out: seq<Held>, k: nat, n: int, q: int)
    requires InTurn(out) && AllKeyed(out) && k < |out| && n in out[k].msg.clock && 1 <= q
    requires if n == out[k].msg.sender then q < out[k].msg.clock[n] else q <= out[k].msg.clock[n]
    ensures HandedBefore(out, k, n, q)
  {
    InTurnPrefix(out, k);
    TallyIsCount(out[..k], n);
    assert Ready(Tally(out[..k]), out[k].msg);
    EveryNumberHanded(out, k, n, q);
  }

  /** Causal delivery. In a run without timeouts whose messages carry their sender's key: each
      sender's messages are handed over with numbers exactly 1, 2, 3, ...; every message that a clock
      names from another node has been handed over before; and nothing is handed over twice. */
  lemma CausalOrder(arrivals: seq<Arrival>, timeout: real)
    requires Quick(arrivals, timeout) && forall a | a in arrivals :: Keyed(a.msg)
    ensures var out := Run(arrivals, timeout).out;
            && (forall k | 0 <= k < |out| :: SeqOf(out[k].msg) == Count(out[..k], out[k].msg.sender) + 1)
            && (forall k, n, q | 0 <= k < |out| && n in out[k].msg.clock && n != out[k].msg.sender
                                 && 1 <= q <= out[k].msg.clock[n] :: HandedBefore(out, k, n, q))
            && (forall j, k | 0 <= j < k < |out| && out[j].msg.sender == out[k].msg.sender ::
                  SeqOf(out[j].msg) < SeqOf(out[k].msg))
  {
    hide Tally, Run, Quick;
    QuickRun(arrivals, timeout);
    OutKeyed(arrivals, timeout);
    var out := Run(arrivals, timeout).out;
    forall k | 0 <= k < |out| ensures SeqOf(out[k].msg) == Count(out[..k], out[k].msg.sender) + 1 {
      NumbersInOrder(out, k);
    }
    forall k, n, q | 0 <= k < |out| && n in out[k].msg.clock && n != out[k].msg.sender
                     && 1 <= q <= out[k].msg.clock[n]
      ensures HandedBefore(out, k, n, q)
    {
      NamedBefore(out, k, n, q);
    }
    forall j, k | 0 <= j < k < |out| && out[j].msg.sender == out[k].msg.sender
      ensures SeqOf(out[j].msg) < SeqOf(out[k].msg)
    {
      CountGrows(out, j, k, out[k].msg.sender);
    }
  }
}
