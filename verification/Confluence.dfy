/** Without timeouts, what the reorder buffer hands over does not depend on the order of arrival: it is the largest part
    of the messages sent that can be put in causal order. */
module Confluence {
  import opened Reorderer
  import opened CausalDelivery

  ghost function Sent(arrivals: seq<Arrival>): set<Message> {
    set a | a in arrivals :: a.msg
  }

  ghost function Delivered(w: World): set<Message> {
    set h | h in w.out :: h.msg
  }

  ghost function Waiting(w: World): set<Message> {
    (set h | h in w.state.buffer :: h.msg) - Delivered(w)
  }

  /** A message is known by its id, and by its sender and number; copies may arrive. */
  ghost predicate Coherent(ms: set<Message>) {
    && (forall m | m in ms :: Keyed(m))
    && forall m, u | m in ms && u in ms ::
         m.id == u.id || (m.sender == u.sender && SeqOf(m) == SeqOf(u)) ==> m == u
  }

  ghost predicate Proper(arrivals: seq<Arrival>, timeout: real) {
    Quick(arrivals, timeout) && Coherent(Sent(arrivals))
  }

  lemma SentKeyed(arrivals: seq<Arrival>)
    requires Coherent(Sent(arrivals))
    ensures forall a | a in arrivals :: Keyed(a.msg)
  {
    forall a | a in arrivals ensures Keyed(a.msg) {
      assert a.msg in Sent(arrivals);
    }
  }

  /** Only messages that were sent are handed over or held. */
  lemma OnlySent(arrivals: seq<Arrival>, timeout: real)
    ensures var w := Run(arrivals, timeout); Delivered(w) <= Sent(arrivals) && Waiting(w) <= Sent(arrivals)
  {
    hide Run;
    var w := Run(arrivals, timeout);
    forall h | h in w.out || h in w.state.buffer ensures h.msg in Sent(arrivals) {
      OutCame(arrivals, timeout, h);
      var i :| 0 <= i < |arrivals| && h == Held(arrivals[i].msg, arrivals[i].at);
      assert arrivals[i] in arrivals;
    }
  }

  /** Every arrival was accepted, or dropped because its id had been handed over. */
  lemma {:induction false} AcceptedOrKnown(arrivals: seq<Arrival>, timeout: real, a: Arrival)
    requires a in arrivals
    ensures var w := Run(arrivals, timeout); Held(a.msg, a.at) in w.accepted || a.msg.id in w.state.ids
  {
    hide Arrive, Tally;
    var n := |arrivals| - 1;
    var v := Run(arrivals[..n], timeout);
    RunBalanced(arrivals[..n], timeout);
    ArriveKeeps(v, arrivals[n], timeout);
    if a != arrivals[n] {
      assert a in arrivals[..n];
      AcceptedOrKnown(arrivals[..n], timeout, a);
    }
  }

  /** An arrival forgets neither an accepted message nor a known id, and is itself accepted or known. */
  lemma ArriveKeeps(v: World, a: Arrival, timeout: real)
    requires Balanced(v)
    ensures var w := Arrive(v, a, timeout);
            && (forall h | h in v.accepted :: h in w.accepted) && v.state.ids <= w.state.ids
            && (Held(a.msg, a.at) in w.accepted || a.msg.id in w.state.ids)
  {
    hide TryDeliver, Tally;
    ArriveBalanced(v, a, timeout);
    var w := Arrive(v, a, timeout);
    forall id | id in Ids(v.out) ensures id in Ids(w.out) {
      var h :| h in v.out && h.msg.id == id;
      assert h in w.out;
    }
    if a.msg.id in v.state.ids {
      assert a.msg.id in w.state.ids;
    }
  }

  /** Every message sent has been handed over or is waiting. */
  lemma AllAccounted(arrivals: seq<Arrival>, timeout: real)
    requires Coherent(Sent(arrivals))
    ensures var w := Run(arrivals, timeout); Sent(arrivals) == Delivered(w) + Waiting(w)
  {
    hide Run;
    OnlySent(arrivals, timeout);
    RunBalanced(arrivals, timeout);
    var w := Run(arrivals, timeout);
    forall m | m in Sent(arrivals) ensures m in Delivered(w) + Waiting(w) {
      var a :| a in arrivals && a.msg == m;
      AcceptedOrKnown(arrivals, timeout, a);
      var h := Held(m, a.at);
      if h in w.accepted {
        assert h in multiset(w.accepted);
        assert h in w.out || h in w.state.buffer;
      } else {
        var g :| g in w.out && g.msg.id == m.id;
        assert g.msg in Delivered(w);
      }
    }
  }

  // ---- which numbers have been handed over ----

  /** Number q of node n has been handed over. */
  ghost predicate Has(w: World, n: int, q: int) {
    exists m | m in Delivered(w) :: m.sender == n && SeqOf(m) == q
  }

  /** The counter of node n is q exactly when numbers 1 to q have been handed over. */
  lemma HasUpToCounter(w: World, n: int, q: int)
    requires InTurn(w.out) && AllKeyed(w.out)
    ensures Has(w, n, q) <==> 1 <= q <= Seen(Tally(w.out), n)
  {
    hide Tally, Ready;
    CounterIsMaximum(w.out, n);
    TallyIsCount(w.out, n);
    if Has(w, n, q) {
      var m :| m in Delivered(w) && m.sender == n && SeqOf(m) == q;
      var k :| 0 <= k < |w.out| && w.out[k].msg == m;
      NumbersInOrder(w.out, k);
    }
    if 1 <= q <= Seen(Tally(w.out), n) {
      assert w.out[..|w.out|] == w.out;
      EveryNumberHanded(w.out, |w.out|, n, q);
      var j :| 0 <= j < |w.out| && w.out[j].msg.sender == n && SeqOf(w.out[j].msg) == q;
      assert w.out[j].msg in Delivered(w);
    }
  }

  /** Nobody else has the number of a message not handed over. */
  lemma NotHad(w: World, ms: set<Message>, m: Message)
    requires Coherent(ms) && Delivered(w) <= ms && m in ms && m !in Delivered(w)
    ensures !Has(w, m.sender, SeqOf(m))
  {
  }

  /** With everything it needs handed over, and not handed over itself, m is ready. */
  lemma NeedsMet(w: World, ms: set<Message>, m: Message)
    requires InTurn(w.out) && AllKeyed(w.out) && Coherent(ms) && Delivered(w) <= ms && m in ms
    requires m !in Delivered(w) && 1 <= SeqOf(m)
    requires forall n, q | Needs(m, n, q) :: Has(w, n, q)
    ensures Ready(Tally(w.out), m)
  {
    hide Tally, InTurn, Has;
    NotHad(w, ms, m);
    forall n | n in m.clock
      ensures if n == m.sender then m.clock[n] == Seen(Tally(w.out), n) + 1 else m.clock[n] <= Seen(Tally(w.out), n)
    {
      CounterIsMaximum(w.out, n);
      var c := m.clock[n];
      HasUpToCounter(w, n, c);
      HasUpToCounter(w, n, c - 1);
      assert n == m.sender && c > 1 ==> Needs(m, n, c - 1);
      assert n != m.sender && c >= 1 ==> Needs(m, n, c);
    }
  }

  /** What is left waiting after a run is not ready. */
  lemma WaitingNotReady(arrivals: seq<Arrival>, timeout: real)
    requires Proper(arrivals, timeout)
    ensures var w := Run(arrivals, timeout);
            && InTurn(w.out) && AllKeyed(w.out) && Balanced(w)
            && Sent(arrivals) == Delivered(w) + Waiting(w)
            && forall m | m in Waiting(w) :: !Ready(Tally(w.out), m)
  {
    hide Run, Tally, Ready, Quick;
    SentKeyed(arrivals);
    OutKeyed(arrivals, timeout);
    QuickRun(arrivals, timeout);
    RunBalanced(arrivals, timeout);
    AllAccounted(arrivals, timeout);
  }

  // ---- confluence ----

  lemma {:induction false} DeliveredToo(a: seq<Arrival>, b: seq<Arrival>, timeout: real, k: nat)
    requires Proper(a, timeout) && Proper(b, timeout) && Sent(a) == Sent(b)
    requires k <= |Run(a, timeout).out|
    ensures forall j | 0 <= j < k :: Run(a, timeout).out[j].msg in Delivered(Run(b, timeout))
  {
    hide Run, Proper, Tally, Ready, InTurn;
    if k > 0 {
      DeliveredToo(a, b, timeout, k - 1);
      WaitingNotReady(a, timeout);
      WaitingNotReady(b, timeout);
      var v, w := Run(a, timeout), Run(b, timeout);
      var m := v.out[k - 1].msg;
      assert m in Delivered(v);
      assert m in Delivered(w) || m in Waiting(w);
      if m !in Delivered(w) {
        NumbersInOrder(v.out, k - 1);
        forall n, q | Needs(m, n, q) ensures Has(w, n, q) {
          NamedBefore(v.out, k - 1, n, q);
          var j :| 0 <= j < k - 1 && v.out[j].msg.sender == n && SeqOf(v.out[j].msg) == q;
          assert v.out[j].msg in Delivered(w);
        }
        IsCoherent(b, timeout);
        NeedsMet(w, Sent(b), m);
        assert false;
      }
    }
  }

  lemma IsCoherent(a: seq<Arrival>, timeout: real)
    requires Proper(a, timeout)
    ensures Coherent(Sent(a))
  {
  }

  /** Confluence: two runs without timeouts over the same messages, in any order and with any number of
      re-sent copies, hand over the same messages, end with the same counters, and leave the same
      messages waiting. */
  lemma SameOutcome(a: seq<Arrival>, b: seq<Arrival>, timeout: real)
    requires Proper(a, timeout) && Proper(b, timeout) && Sent(a) == Sent(b)
    ensures var v, w := Run(a, timeout), Run(b, timeout);
            && Delivered(v) == Delivered(w) && Waiting(v) == Waiting(w)
            && forall n :: Seen(v.state.delivered, n) == Seen(w.state.delivered, n)
  {
    hide Run, Proper;
    var v, w := Run(a, timeout), Run(b, timeout);
    DeliveredToo(a, b, timeout, |v.out|);
    DeliveredToo(b, a, timeout, |w.out|);
    forall m ensures m in Delivered(v) <==> m in Delivered(w) {
      if m in Delivered(v) {
        var h :| h in v.out && h.msg == m;
      }
      if m in Delivered(w) {
        var h :| h in w.out && h.msg == m;
      }
    }
    SplitSent(a, timeout);
    SplitSent(b, timeout);
    RunBalanced(a, timeout);
    RunBalanced(b, timeout);
    forall n ensures Seen(v.state.delivered, n) == Seen(w.state.delivered, n) {
      SameCounter(v, w, n);
      SameCounter(w, v, n);
    }
  }

  lemma SplitSent(a: seq<Arrival>, timeout: real)
    requires Proper(a, timeout)
    ensures var w := Run(a, timeout); Waiting(w) == Sent(a) - Delivered(w)
  {
    hide Run, Quick;
    AllAccounted(a, timeout);
    OnlySent(a, timeout);
  }

  lemma SameCounter(v: World, w: World, n: int)
    requires Balanced(v) && Balanced(w) && Delivered(v) <= Delivered(w)
    ensures Seen(v.state.delivered, n) <= Seen(w.state.delivered, n)
  {
    CounterIsMaximum(v.out, n);
    CounterIsMaximum(w.out, n);
    if Seen(v.state.delivered, n) > 0 {
      var h :| h in v.out && h.msg.sender == n && SeqOf(h.msg) == Seen(Tally(v.out), n);
      assert h.msg in Delivered(w);
      var g :| g in w.out && g.msg == h.msg;
    }
  }

  // ---- completeness ----

  /** m must come after number q of node n. */
  ghost predicate Needs(m: Message, n: int, q: int) {
    n in m.clock && 1 <= q && (if n == m.sender then q < m.clock[n] else q <= m.clock[n])
  }

  /** Some message of ms is number q of node n and ranks below r. */
  ghost predicate Ranked(ms: set<Message>, rank: map<Message, nat>, n: int, q: int, r: nat) {
    exists u | u in ms && u in rank :: u.sender == n && SeqOf(u) == q && rank[u] < r
  }

  /** ms contains everything its messages need, and rank shows there is no cycle. */
  ghost predicate Orderable(ms: set<Message>, rank: map<Message, nat>) {
    forall m | m in ms :: m in rank && 1 <= SeqOf(m)
      && forall n, q | Needs(m, n, q) :: Ranked(ms, rank, n, q, rank[m])
  }

  lemma {:induction false} RankedDelivered(arrivals: seq<Arrival>, timeout: real, ms: set<Message>,
                                           rank: map<Message, nat>, m: Message)
    requires Proper(arrivals, timeout) && ms <= Sent(arrivals) && Orderable(ms, rank) && m in ms
    ensures m in Delivered(Run(arrivals, timeout))
    decreases rank[m]
  {
    hide Run, Proper, Tally, Ready, InTurn;
    var w := Run(arrivals, timeout);
    WaitingNotReady(arrivals, timeout);
    forall n, q | Needs(m, n, q) ensures Has(w, n, q) {
      var u :| u in ms && u in rank && u.sender == n && SeqOf(u) == q && rank[u] < rank[m];
      RankedDelivered(arrivals, timeout, ms, rank, u);
    }
    assert m in Delivered(w) || m in Waiting(w);
    if m !in Delivered(w) {
      IsCoherent(arrivals, timeout);
      NeedsMet(w, Sent(arrivals), m);
      assert false;
    }
  }

  /** Position of the first copy of m. */
  ghost function FirstOf(out: seq<Held>, m: Message): (k: nat)
    requires exists h :: h in out && h.msg == m
    ensures k < |out| && out[k].msg == m
  {
    var k :| 0 <= k < |out| && out[k].msg == m; k
  }

  lemma OutRanks(arrivals: seq<Arrival>, timeout: real) returns (rank: map<Message, nat>)
    requires Proper(arrivals, timeout)
    ensures Orderable(Delivered(Run(arrivals, timeout)), rank)
  {
    hide Run, Proper, Tally, Ready, InTurn, Balanced;
    var w := Run(arrivals, timeout);
    var ms := Delivered(w);
    WaitingNotReady(arrivals, timeout);
    NoRepeats(w.out);
    rank := map m | m in ms :: FirstOf(w.out, m);
    forall m | m in ms
      ensures 1 <= SeqOf(m)
      ensures forall n, q | Needs(m, n, q) :: Ranked(ms, rank, n, q, rank[m])
    {
      var k := FirstOf(w.out, m);
      NumbersInOrder(w.out, k);
      forall n, q | Needs(m, n, q) ensures Ranked(ms, rank, n, q, k) {
        NamedBefore(w.out, k, n, q);
        var j :| 0 <= j < k && w.out[j].msg.sender == n && SeqOf(w.out[j].msg) == q;
        assert w.out[j].msg in ms && FirstOf(w.out, w.out[j].msg) == j;
      }
    }
  }

  lemma NoRepeats(out: seq<Held>)
    requires InTurn(out) && AllKeyed(out)
    ensures forall i, j | 0 <= i < |out| && 0 <= j < |out| && out[i].msg == out[j].msg :: i == j
  {
    hide InTurn;
    forall i, j | 0 <= i < j < |out| ensures out[i].msg != out[j].msg {
      NumbersInOrder(out, i);
      NumbersInOrder(out, j);
      CountGrows(out, i, j, out[i].msg.sender);
    }
  }

  /** m belongs to some of the messages that have all they need among themselves, and no cycle. */
  ghost predicate InOrderablePart(ms: set<Message>, m: Message) {
    exists part, rank :: m in part && part <= ms && Orderable(part, rank)
  }

  ghost function Deliverable(ms: set<Message>): set<Message> {
    set m | m in ms && InOrderablePart(ms, m)
  }

  /** What is handed over, read off the messages sent alone. */
  lemma DeliveredIff(arrivals: seq<Arrival>, timeout: real)
    requires Proper(arrivals, timeout)
    ensures Delivered(Run(arrivals, timeout)) == Deliverable(Sent(arrivals))
  {
    hide Run, Proper, Orderable;
    var w := Run(arrivals, timeout);
    OnlySent(arrivals, timeout);
    var rank := OutRanks(arrivals, timeout);
    forall m ensures m in Delivered(w) <==> m in Deliverable(Sent(arrivals)) {
      if m in Deliverable(Sent(arrivals)) {
        var part, r :| m in part && part <= Sent(arrivals) && Orderable(part, r);
        RankedDelivered(arrivals, timeout, part, r, m);
      }
    }
  }

  /** The buffer hands over everything exactly when the messages sent can be put in causal order. */
  lemma EmptiesIffOrderable(arrivals: seq<Arrival>, timeout: real)
    requires Proper(arrivals, timeout)
    ensures Waiting(Run(arrivals, timeout)) == {} <==> exists rank :: Orderable(Sent(arrivals), rank)
  {
    hide Run, Proper, Orderable;
    var w := Run(arrivals, timeout);
    SplitSent(arrivals, timeout);
    OnlySent(arrivals, timeout);
    if Waiting(w) == {} {
      assert forall m | m in Sent(arrivals) :: m in Delivered(w) || m in Waiting(w);
      assert Delivered(w) == Sent(arrivals);
      var rank := OutRanks(arrivals, timeout);
    }
    if rank :| Orderable(Sent(arrivals), rank) {
      forall m | m in Sent(arrivals) ensures m in Delivered(w) {
        RankedDelivered(arrivals, timeout, Sent(arrivals), rank, m);
      }
    }
  }

  // ---- an empty buffer ----

  /** Every message arrives once. */
  ghost predicate NoCopies(arrivals: seq<Arrival>) {
    forall i, j | 0 <= i < j < |arrivals| :: arrivals[i].msg != arrivals[j].msg
  }

  ghost predicate AllDifferent(held: seq<Held>) {
    forall i, j | 0 <= i < j < |held| :: held[i].msg != held[j].msg
  }

  lemma {:induction false} AcceptedOnce(arrivals: seq<Arrival>, timeout: real)
    requires NoCopies(arrivals)
    ensures AllDifferent(Run(arrivals, timeout).accepted)
  {
    hide TryDeliver;
    if arrivals != [] {
      var n := |arrivals| - 1;
      var before := Run(arrivals[..n], timeout).accepted;
      AcceptedOnce(arrivals[..n], timeout);
      forall h | h in before ensures h.msg != arrivals[n].msg {
        AcceptedCame(arrivals[..n], timeout, h);
        var i :| 0 <= i < n && h == Held(arrivals[..n][i].msg, arrivals[..n][i].at);
        assert arrivals[i].msg != arrivals[n].msg;
      }
    }
  }

  /** Two lists that together have no message twice have no message in common. */
  lemma DifferentSplit(all: seq<Held>, a: seq<Held>, b: seq<Held>, g: Held, h: Held)
    requires AllDifferent(all) && multiset(all) == multiset(a) + multiset(b) && g in a && h in b
    ensures g.msg != h.msg
  {
    assert g in multiset(a) && h in multiset(b);
    assert g in multiset(all) && h in multiset(all);
    if g == h {
      assert multiset(all)[g] >= 2;
      OnceOnly(all, g);
    } else {
      var i :| 0 <= i < |all| && all[i] == g;
      var j :| 0 <= j < |all| && all[j] == h;
    }
  }

  lemma {:induction false} OnceOnly(all: seq<Held>, g: Held)
    requires AllDifferent(all)
    ensures multiset(all)[g] <= 1
  {
    if all != [] {
      var before, l := all[..|all| - 1], all[|all| - 1];
      OnceOnly(before, g);
      assert all == before + [l];
      if l == g {
        assert g !in before;
      }
    }
  }

  /** For messages that each arrive once: the buffer ends empty exactly when they can be put in causal order. */
  lemma BufferEmptiesIff(arrivals: seq<Arrival>, timeout: real)
    requires Proper(arrivals, timeout) && NoCopies(arrivals)
    ensures Run(arrivals, timeout).state.buffer == [] <==> exists rank :: Orderable(Sent(arrivals), rank)
  {
    hide Run, Proper, Orderable;
    var w := Run(arrivals, timeout);
    EmptiesIffOrderable(arrivals, timeout);
    RunBalanced(arrivals, timeout);
    AcceptedOnce(arrivals, timeout);
    if w.state.buffer != [] {
      var h := w.state.buffer[0];
      if h.msg in Delivered(w) {
        var g :| g in w.out && g.msg == h.msg;
        DifferentSplit(w.accepted, w.out, w.state.buffer, g, h);
        assert false;
      }
      assert h.msg in Waiting(w);
    }
  }

  // ---- order ----

  lemma FirstArrival(a: Arrival, timeout: real)
    ensures var h := Held(a.msg, a.at);
            Run([a], timeout).out == if Ready(map[], a.msg) || TimedOut(h, a.now, timeout) then [h] else []
  {
    var h := Held(a.msg, a.at);
    assert [a][..0] == [] && [h][..0] == [];
    assert SortByKey([h]) == [h] by {
      assert SortByKey([]) == [];
      assert Insert([], h) == [h];
    }
    assert SweepOver(map[], {}, [h][..0], a.now, timeout) == Sweep(map[], {}, [], []);
    FlushRound(State(map[], {}, [h]), a.now, timeout, []);
    NothingHeld(Mark(map[], a.msg), {} + {a.msg.id}, a.now, timeout);
    assert State(map[], {}, []).(buffer := [] + [h]) == State(map[], {}, [h]);
    assert Run([a][..0], timeout) == World(State(map[], {}, []), [], []);
  }

  lemma {:induction false} OutGrows(arrivals: seq<Arrival>, timeout: real, k: nat)
    requires k <= |arrivals|
    ensures Run(arrivals[..k], timeout).out <= Run(arrivals, timeout).out
  {
    hide Flush;
    if k == |arrivals| {
      assert arrivals[..k] == arrivals;
    } else {
      var before := arrivals[..|arrivals| - 1];
      OutGrows(before, timeout, k);
      assert before[..k] == arrivals[..k];
    }
  }

  /** A message that needs nothing is handed over first if it arrives first, whatever the sort keys: the sort orders
      one flush, not the node's whole output, so concurrent messages come out in arrival order. */
  lemma ArrivalOrderWins(arrivals: seq<Arrival>, timeout: real)
    requires arrivals != [] && Ready(map[], arrivals[0].msg)
    ensures Run(arrivals, timeout).out != [] && Run(arrivals, timeout).out[0].msg == arrivals[0].msg
  {
    hide Run;
    assert arrivals[..1] == [arrivals[0]];
    FirstArrival(arrivals[0], timeout);
    OutGrows(arrivals, timeout, 1);
  }
}
