/** When the order in which messages are handed over is the same for every arrival order: exactly when those that can be
    handed over form a single causal chain. */
module DeliveryOrder {
  import opened Reorderer
  import opened CausalDelivery
  import opened Confluence

  function Messages(out: seq<Held>): (ms: seq<Message>)
    ensures |ms| == |out| && forall k | 0 <= k < |ms| :: ms[k] == out[k].msg
  {
    seq(|out|, k requires 0 <= k < |out| => out[k].msg)
  }

  // ---- arrivals in causal order ----

  function Stamped(arrivals: seq<Arrival>): (held: seq<Held>)
    ensures |held| == |arrivals| && forall k | 0 <= k < |held| :: held[k] == Held(arrivals[k].msg, arrivals[k].at)
  {
    seq(|arrivals|, k requires 0 <= k < |arrivals| => Held(arrivals[k].msg, arrivals[k].at))
  }

  ghost predicate DistinctIds(arrivals: seq<Arrival>) {
    forall i, j | 0 <= i < j < |arrivals| :: arrivals[i].msg.id != arrivals[j].msg.id
  }

  lemma FlushOne(s: State, h: Held, now: real, timeout: real)
    requires s.buffer == [h] && Ready(s.delivered, h.msg)
    ensures Flush(s, now, timeout) == (State(Mark(s.delivered, h.msg), s.ids + {h.msg.id}, []), [h])
  {
    hide Ready, Mark;
    assert SortByKey([h]) == [h] by {
      assert [h][..0] == [] && SortByKey([]) == [] && Insert([], h) == [h];
    }
    assert [h][..0] == [];
    assert SweepOver(s.delivered, s.ids, [], now, timeout) == Sweep(s.delivered, s.ids, [], []);
    FlushRound(s, now, timeout, []);
    NothingHeld(Mark(s.delivered, h.msg), s.ids + {h.msg.id}, now, timeout);
    assert [] + [h] == [h] && [h] + [] == [h];
    assert [] + Flush(s, now, timeout).1 == Flush(s, now, timeout).1;
  }

  /** Messages that arrive in causal order come out as they arrive, each at once. */
  lemma {:induction false} OutAsArrived(arrivals: seq<Arrival>, timeout: real)
    requires InTurn(Stamped(arrivals)) && DistinctIds(arrivals)
    ensures Run(arrivals, timeout).out == Stamped(arrivals) && Run(arrivals, timeout).state.buffer == []
  {
    hide InTurn, Arrive;
    if arrivals != [] {
      var before, k := arrivals[..|arrivals| - 1], |arrivals| - 1;
      var held := Stamped(arrivals);
      assert held[..k] == Stamped(before);
      TurnPrefix(held, k);
      OutAsArrived(before, timeout);
      RunBalanced(before, timeout);
      NewId(arrivals);
      OutAtOnce(Run(before, timeout), arrivals[k], timeout);
      assert held == Stamped(before) + [held[k]];
    }
  }

  lemma NewId(arrivals: seq<Arrival>)
    requires arrivals != [] && DistinctIds(arrivals)
    ensures arrivals[|arrivals| - 1].msg.id !in Ids(Stamped(arrivals[..|arrivals| - 1]))
  {
    var before := arrivals[..|arrivals| - 1];
    forall g | g in Stamped(before) ensures g.msg.id != arrivals[|arrivals| - 1].msg.id {
      var i :| 0 <= i < |before| && g == Stamped(before)[i];
      assert arrivals[i].msg.id != arrivals[|before|].msg.id;
    }
  }

  lemma OutAtOnce(w: World, a: Arrival, timeout: real)
    requires w.state.buffer == [] && w.state.delivered == Tally(w.out) && Ready(Tally(w.out), a.msg)
    requires a.msg.id !in w.state.ids
    ensures var r := Arrive(w, a, timeout); r.out == w.out + [Held(a.msg, a.at)] && r.state.buffer == []
  {
    hide Flush, Tally, Ready;
    var h := Held(a.msg, a.at);
    assert [] + [h] == [h];
    FlushOne(w.state.(buffer := [h]), h, a.now, timeout);
  }

  lemma TurnPrefix(held: seq<Held>, k: nat)
    requires InTurn(held) && k <= |held|
    ensures InTurn(held[..k]) && (k < |held| ==> Ready(Tally(held[..k]), held[k].msg))
  {
    forall j | 0 <= j < k ensures Ready(Tally(held[..k][..j]), held[..k][j].msg) {
      assert held[..k][..j] == held[..j];
    }
  }

  // ---- lists of messages in causal order ----

  ghost predicate NoneTwice(l: seq<Message>) {
    forall i, j | 0 <= i < j < |l| :: l[i] != l[j]
  }

  ghost predicate Placed(l: seq<Message>, k: nat, n: int, q: int)
    requires k <= |l|
  {
    exists j | 0 <= j < k :: l[j].sender == n && SeqOf(l[j]) == q
  }

  /** Everything a message needs stands before it. */
  ghost predicate Listed(l: seq<Message>) {
    forall k | 0 <= k < |l| :: 1 <= SeqOf(l[k]) && forall n, q | Needs(l[k], n, q) :: Placed(l, k, n, q)
  }

  /** All messages arrive at once, in the order of the list. */
  function ArriveAt(l: seq<Message>, now: real): (arrivals: seq<Arrival>)
    ensures |arrivals| == |l| && forall k | 0 <= k < |l| :: arrivals[k] == Arrival(l[k], 0.0, now)
  {
    seq(|l|, k requires 0 <= k < |l| => Arrival(l[k], 0.0, now))
  }

  /** Time 0, or earlier still if the timeout is not positive. */
  function Early(timeout: real): real {
    if timeout > 0.0 then 0.0 else timeout - 1.0
  }

  lemma {:induction false} ListedInTurn(ms: set<Message>, l: seq<Message>, held: seq<Held>)
    requires Coherent(ms) && (forall m <- l :: m in ms) && NoneTwice(l) && Listed(l)
    requires |held| == |l| && forall k | 0 <= k < |l| :: held[k].msg == l[k]
    ensures InTurn(held) && AllKeyed(held)
  {
    hide Tally, Ready, Coherent;
    Keys(ms, l, held);
    if l != [] {
      var k := |l| - 1;
      var w := World(State(map[], {}, []), held[..k], []);
      ListedPrefix(l, k);
      ListedInTurn(ms, l[..k], held[..k]);
      forall n, q | Needs(l[k], n, q) ensures Has(w, n, q) {
        var j :| 0 <= j < k && l[j].sender == n && SeqOf(l[j]) == q;
        assert held[..k][j].msg in Delivered(w);
      }
      assert Delivered(w) <= ms;
      assert l[k] !in Delivered(w);
      NeedsMet(w, ms, l[k]);
      forall j | 0 <= j < |held| ensures Ready(Tally(held[..j]), held[j].msg) {
        assert j < k ==> held[..k][..j] == held[..j] && held[..k][j] == held[j];
      }
    } else {
      assert held == [];
    }
  }

  lemma Keys(ms: set<Message>, l: seq<Message>, held: seq<Held>)
    requires Coherent(ms) && (forall m <- l :: m in ms)
    requires |held| == |l| && forall k | 0 <= k < |l| :: held[k].msg == l[k]
    ensures AllKeyed(held)
  {
    forall h | h in held ensures Keyed(h.msg) {
      var k :| 0 <= k < |held| && held[k] == h;
      assert l[k] in l;
    }
  }

  lemma ListedPrefix(l: seq<Message>, k: nat)
    requires Listed(l) && NoneTwice(l) && k <= |l|
    ensures Listed(l[..k]) && NoneTwice(l[..k])
  {
    forall i | 0 <= i < k
      ensures 1 <= SeqOf(l[..k][i]) && forall n, q | Needs(l[..k][i], n, q) :: Placed(l[..k], i, n, q)
    {
      forall n, q | Needs(l[i], n, q) ensures Placed(l[..k], i, n, q) {
        var j :| 0 <= j < i && l[j].sender == n && SeqOf(l[j]) == q;
        assert l[..k][j] == l[j];
      }
    }
  }

  /** A causal list of the messages is itself an admissible arrival order, and comes out unchanged. */
  lemma ListComesOut(ms: set<Message>, l: seq<Message>, timeout: real)
    requires Coherent(ms) && (forall m :: m in l <==> m in ms) && NoneTwice(l) && Listed(l)
    ensures var a := ArriveAt(l, Early(timeout));
            Proper(a, timeout) && Sent(a) == ms && Messages(Run(a, timeout).out) == l
  {
    hide Tally, Ready, Run, Listed;
    var a := ArriveAt(l, Early(timeout));
    assert Sent(a) == ms by {
      forall m ensures m in Sent(a) <==> m in ms {
        if m in ms {
          var k :| 0 <= k < |l| && l[k] == m;
          assert a[k] in a;
        }
        if m in Sent(a) {
          var k :| 0 <= k < |a| && a[k].msg == m;
          assert l[k] in l;
        }
      }
    }
    ListedInTurn(ms, l, Stamped(a));
    forall i, j | 0 <= i < j < |a| ensures a[i].msg.id != a[j].msg.id {
      assert l[i] in l && l[j] in l;
    }
    OutAsArrived(a, timeout);
  }

  // ---- listing by rank ----

  ghost predicate Ascending(l: seq<Message>, rank: map<Message, nat>)
    requires forall m <- l :: m in rank
  {
    forall i, j | 0 <= i < j < |l| :: rank[l[i]] <= rank[l[j]]
  }

  lemma {:induction false} Highest(ms: set<Message>, rank: map<Message, nat>) returns (top: Message)
    requires ms != {} && forall m <- ms :: m in rank
    ensures top in ms && forall m <- ms :: rank[m] <= rank[top]
    decreases ms
  {
    var first :| first in ms;
    top := first;
    if ms != {first} {
      var other := Highest(ms - {first}, rank);
      top := if rank[other] > rank[first] then other else first;
      assert forall m <- ms :: m == first || m in ms - {first};
    }
  }

  lemma {:induction false} ByRank(ms: set<Message>, rank: map<Message, nat>) returns (l: seq<Message>)
    requires forall m <- ms :: m in rank
    ensures (forall m :: m in l <==> m in ms) && NoneTwice(l) && Ascending(l, rank)
    decreases ms
  {
    if ms == {} {
      l := [];
    } else {
      var top := Highest(ms, rank);
      var before := ByRank(ms - {top}, rank);
      l := before + [top];
      forall i, j | 0 <= i < j < |l| ensures l[i] != l[j] && rank[l[i]] <= rank[l[j]] {
        assert l[i] in before;
      }
    }
  }

  lemma RankedIsListed(ms: set<Message>, rank: map<Message, nat>, l: seq<Message>)
    requires Orderable(ms, rank) && (forall m :: m in l <==> m in ms) && Ascending(l, rank)
    ensures Listed(l)
  {
    forall k | 0 <= k < |l|
      ensures 1 <= SeqOf(l[k]) && forall n, q | Needs(l[k], n, q) :: Placed(l, k, n, q)
    {
      assert l[k] in l;
      forall n, q | Needs(l[k], n, q) ensures Placed(l, k, n, q) {
        assert Ranked(ms, rank, n, q, rank[l[k]]);
        var u :| u in ms && u in rank && u.sender == n && SeqOf(u) == q && rank[u] < rank[l[k]];
        var j :| 0 <= j < |l| && l[j] == u;
        assert j < k;
      }
    }
  }

  // ---- the causal order of the messages sent ----

  /** u is one of the messages that m must come after. */
  ghost predicate Names(u: Message, m: Message) {
    Needs(m, u.sender, SeqOf(u))
  }

  ghost predicate Path(ms: set<Message>, p: seq<Message>) {
    |p| >= 2 && (forall k | 0 <= k < |p| :: p[k] in ms) && forall k | 0 < k < |p| :: Names(p[k - 1], p[k])
  }

  /** A chain of needs leads from u to m. */
  ghost predicate Precedes(ms: set<Message>, u: Message, m: Message) {
    exists p :: Path(ms, p) && p[0] == u && p[|p| - 1] == m
  }

  /** Of any two messages one must come after the other. */
  ghost predicate Chain(ms: set<Message>) {
    forall u, m | u in ms && m in ms && u != m :: Precedes(ms, u, m) || Precedes(ms, m, u)
  }

  lemma PrecedesStep(ms: set<Message>, u: Message, v: Message, m: Message)
    requires u in ms && v in ms && Names(u, v) && (v == m || Precedes(ms, v, m))
    ensures Precedes(ms, u, m)
  {
    if v == m {
      assert Path(ms, [u, v]);
    } else {
      var p :| Path(ms, p) && p[0] == v && p[|p| - 1] == m;
      var r := [u] + p;
      assert forall k | 0 < k < |p| :: r[k + 1] == p[k] && r[k] == p[k - 1];
      assert Path(ms, r);
    }
  }

  /** Along a chain of needs the rank rises. */
  lemma {:induction false} PathRises(ms: set<Message>, rank: map<Message, nat>, p: seq<Message>)
    requires Coherent(ms) && Orderable(ms, rank) && Path(ms, p)
    ensures rank[p[0]] < rank[p[|p| - 1]]
  {
    var k := |p| - 1;
    NamesRises(ms, rank, p[k - 1], p[k]);
    if |p| > 2 {
      assert Path(ms, p[..k]);
      PathRises(ms, rank, p[..k]);
    }
  }

  lemma NamesRises(ms: set<Message>, rank: map<Message, nat>, u: Message, m: Message)
    requires Coherent(ms) && Orderable(ms, rank) && u in ms && m in ms && Names(u, m)
    ensures rank[u] < rank[m]
  {
    assert Ranked(ms, rank, u.sender, SeqOf(u), rank[m]);
    var v :| v in ms && v in rank && v.sender == u.sender && SeqOf(v) == SeqOf(u) && rank[v] < rank[m];
    assert v == u;
  }

  // ---- a chain fixes the order ----

  lemma NamesBefore(arrivals: seq<Arrival>, timeout: real, i: nat, j: nat)
    requires Proper(arrivals, timeout) && i < |Run(arrivals, timeout).out| && j < |Run(arrivals, timeout).out|
    requires Names(Run(arrivals, timeout).out[i].msg, Run(arrivals, timeout).out[j].msg)
    ensures i < j
  {
    hide Run, Tally, Ready, InTurn, Quick;
    var out := Run(arrivals, timeout).out;
    WaitingNotReady(arrivals, timeout);
    OnlySent(arrivals, timeout);
    NamedBefore(out, j, out[i].msg.sender, SeqOf(out[i].msg));
    var k :| 0 <= k < j && out[k].msg.sender == out[i].msg.sender && SeqOf(out[k].msg) == SeqOf(out[i].msg);
    var w := Run(arrivals, timeout);
    assert out[k].msg in Delivered(w) && out[i].msg in Delivered(w);
    assert out[k].msg == out[i].msg;
    NoRepeats(out);
  }

  lemma {:induction false} PathBefore(arrivals: seq<Arrival>, timeout: real, p: seq<Message>, i: nat, j: nat)
    requires Proper(arrivals, timeout) && Path(Delivered(Run(arrivals, timeout)), p)
    requires i < |Run(arrivals, timeout).out| && j < |Run(arrivals, timeout).out|
    requires Run(arrivals, timeout).out[i].msg == p[0] && Run(arrivals, timeout).out[j].msg == p[|p| - 1]
    ensures i < j
    decreases |p|
  {
    hide Run, Proper;
    var w := Run(arrivals, timeout);
    if |p| == 2 {
      assert Names(p[0], p[1]);
      NamesBefore(arrivals, timeout, i, j);
    } else {
      var m := p[|p| - 2];
      assert m in Delivered(w);
      var k: nat :| k < |w.out| && w.out[k].msg == m;
      assert Path(Delivered(w), p[..|p| - 1]);
      PathBefore(arrivals, timeout, p[..|p| - 1], i, k);
      assert Names(p[|p| - 2], p[|p| - 1]);
      NamesBefore(arrivals, timeout, k, j);
    }
  }

  lemma PrecedesBefore(arrivals: seq<Arrival>, timeout: real, i: nat, j: nat)
    requires Proper(arrivals, timeout)
    requires i < |Run(arrivals, timeout).out| && j < |Run(arrivals, timeout).out|
    requires var w := Run(arrivals, timeout); Precedes(Delivered(w), w.out[i].msg, w.out[j].msg)
    ensures i < j
  {
    hide Run, Proper;
    var w := Run(arrivals, timeout);
    var p :| Path(Delivered(w), p) && p[0] == w.out[i].msg && p[|p| - 1] == w.out[j].msg;
    PathBefore(arrivals, timeout, p, i, j);
  }

  /** Two runs over the same messages that hand over a chain agree position by position. */
  lemma {:induction false} SamePrefix(a: seq<Arrival>, b: seq<Arrival>, timeout: real, k: nat)
    requires Proper(a, timeout) && Proper(b, timeout) && Chain(Delivered(Run(a, timeout)))
    requires Delivered(Run(a, timeout)) == Delivered(Run(b, timeout))
    requires k <= |Run(a, timeout).out| && k <= |Run(b, timeout).out|
    ensures Messages(Run(a, timeout).out)[..k] == Messages(Run(b, timeout).out)[..k]
  {
    hide Run, Proper, Precedes;
    if k > 0 {
      SamePrefix(a, b, timeout, k - 1);
      var x, y := Messages(Run(a, timeout).out), Messages(Run(b, timeout).out);
      if x[k - 1] != y[k - 1] {
        var ms := Delivered(Run(a, timeout));
        var i := Later(a, b, timeout, k - 1);
        var j := Later(b, a, timeout, k - 1);
        assert x[k - 1] in ms && y[k - 1] in ms by {
          assert Run(a, timeout).out[k - 1].msg in Delivered(Run(a, timeout));
          assert Run(b, timeout).out[k - 1].msg in Delivered(Run(b, timeout));
        }
        if Precedes(ms, x[k - 1], y[k - 1]) {
          PrecedesBefore(b, timeout, j, k - 1);
          assert false;
        } else {
          PrecedesBefore(a, timeout, i, k - 1);
          assert false;
        }
      }
      assert x[..k] == x[..k - 1] + [x[k - 1]] && y[..k] == y[..k - 1] + [y[k - 1]];
    }
  }

  /** Where the outputs agree up to k, b's k-th message stands in a's output at k or later. */
  lemma Later(a: seq<Arrival>, b: seq<Arrival>, timeout: real, k: nat) returns (i: nat)
    requires Proper(a, timeout) && Proper(b, timeout) && Delivered(Run(a, timeout)) == Delivered(Run(b, timeout))
    requires k <= |Run(a, timeout).out| && k < |Run(b, timeout).out|
    requires Messages(Run(a, timeout).out)[..k] == Messages(Run(b, timeout).out)[..k]
    ensures k <= i < |Run(a, timeout).out| && Run(a, timeout).out[i].msg == Run(b, timeout).out[k].msg
  {
    hide Run, Proper, Tally, Ready, InTurn;
    var v, w := Run(a, timeout), Run(b, timeout);
    var m := w.out[k].msg;
    assert m in Delivered(w);
    assert m in Delivered(v);
    i :| 0 <= i < |v.out| && v.out[i].msg == m;
    WaitingNotReady(b, timeout);
    NoRepeats(w.out);
  }

  lemma ChainFixesOrder(a: seq<Arrival>, b: seq<Arrival>, timeout: real)
    requires Proper(a, timeout) && Proper(b, timeout) && Sent(a) == Sent(b) && Chain(Deliverable(Sent(a)))
    ensures Messages(Run(a, timeout).out) == Messages(Run(b, timeout).out)
  {
    hide Run, Proper, Chain, Deliverable;
    DeliveredIff(a, timeout);
    DeliveredIff(b, timeout);
    var x, y := Messages(Run(a, timeout).out), Messages(Run(b, timeout).out);
    var k := if |x| < |y| then |x| else |y|;
    SamePrefix(a, b, timeout, k);
    if |x| < |y| {
      var i := Later(a, b, timeout, k);
    }
    if |y| < |x| {
      assert x[..k] == y[..k];
      var i := Later(b, a, timeout, k);
    }
    assert x[..k] == x && y[..k] == y;
  }

  // ---- without a chain there are two orders ----

  /** Everything that must come before x or y; then x, y; then the rest. */
  ghost function Between(ms: set<Message>, rank: map<Message, nat>, x: Message, y: Message, top: nat): map<Message, nat>
    requires forall m <- ms :: m in rank
  {
    map m | m in ms ::
      if Precedes(ms, m, x) || Precedes(ms, m, y) then rank[m]
      else if m == x then top + 1 else if m == y then top + 2 else rank[m] + top + 3
  }

  lemma BetweenOrders(ms: set<Message>, rank: map<Message, nat>, x: Message, y: Message, top: nat)
    requires Coherent(ms) && Orderable(ms, rank) && x in ms && y in ms && x != y
    requires !Precedes(ms, x, y) && !Precedes(ms, y, x) && forall m <- ms :: rank[m] <= top
    ensures Orderable(ms, Between(ms, rank, x, y, top))
    ensures Between(ms, rank, x, y, top)[x] == top + 1 && Between(ms, rank, x, y, top)[y] == top + 2
  {
    hide Precedes, Coherent, Needs;
    var r := Between(ms, rank, x, y, top);
    NotItsOwn(ms, rank, x);
    NotItsOwn(ms, rank, y);
    forall m | m in ms
      ensures m in r && 1 <= SeqOf(m)
      ensures forall n, q | Needs(m, n, q) :: Ranked(ms, r, n, q, r[m])
    {
      forall n, q | Needs(m, n, q) ensures Ranked(ms, r, n, q, r[m]) {
        assert Ranked(ms, rank, n, q, rank[m]);
        var u :| u in ms && u in rank && u.sender == n && SeqOf(u) == q && rank[u] < rank[m];
        if m == x || Precedes(ms, m, x) {
          PrecedesStep(ms, u, m, x);
        }
        if m == y || Precedes(ms, m, y) {
          PrecedesStep(ms, u, m, y);
        }
        assert r[u] < r[m];
      }
    }
  }

  lemma NotItsOwn(ms: set<Message>, rank: map<Message, nat>, m: Message)
    requires Coherent(ms) && Orderable(ms, rank)
    ensures !Precedes(ms, m, m)
  {
    if Precedes(ms, m, m) {
      var p :| Path(ms, p) && p[0] == m && p[|p| - 1] == m;
      PathRises(ms, rank, p);
    }
  }

  // ---- arrival orders that end with what cannot be handed over ----

  lemma {:induction false} OutGrows(arrivals: seq<Arrival>, timeout: real, k: nat)
    requires k <= |arrivals|
    ensures Run(arrivals[..k], timeout).out <= Run(arrivals, timeout).out
    decreases |arrivals|
  {
    hide TryDeliver;
    if k < |arrivals| {
      var before := arrivals[..|arrivals| - 1];
      OutGrows(before, timeout, k);
      assert before[..k] == arrivals[..k];
    } else {
      assert arrivals[..k] == arrivals;
    }
  }

  lemma SomeList(ms: set<Message>) returns (l: seq<Message>)
    ensures forall m :: m in l <==> m in ms
  {
    l := ByRank(ms, map m | m in ms :: 0);
  }

  lemma SentOfList(l: seq<Message>, now: real)
    ensures forall m :: m in l <==> m in Sent(ArriveAt(l, now))
  {
    var a := ArriveAt(l, now);
    forall m ensures m in l <==> m in Sent(a) {
      if m in l {
        var k :| 0 <= k < |l| && l[k] == m;
        assert a[k] in a;
      }
    }
  }

  /** Messages that all arrive at once arrive without timeouts. */
  lemma AtOnceIsProper(ms: set<Message>, l: seq<Message>, timeout: real)
    requires Coherent(ms) && forall m :: m in l <==> m in ms
    ensures Proper(ArriveAt(l, Early(timeout)), timeout) && Sent(ArriveAt(l, Early(timeout))) == ms
  {
    hide Coherent;
    SentOfList(l, Early(timeout));
  }

  /** Every set of messages arrives in some order, so what can be handed over of it has a causal order. */
  lemma DeliverableRanks(ms: set<Message>) returns (rank: map<Message, nat>)
    requires Coherent(ms)
    ensures Orderable(Deliverable(ms), rank)
  {
    hide Coherent, Proper, Orderable, Run, Deliverable;
    var l := SomeList(ms);
    AtOnceIsProper(ms, l, 1.0);
    DeliveredIff(ArriveAt(l, Early(1.0)), 1.0);
    rank := OutRanks(ArriveAt(l, Early(1.0)), 1.0);
  }

  /** A causal list of what can be handed over, with the rest of the messages behind it, comes out as listed. */
  lemma ListComesFirst(ms: set<Message>, l: seq<Message>, timeout: real) returns (a: seq<Arrival>)
    requires Coherent(ms) && (forall m :: m in l <==> m in Deliverable(ms)) && NoneTwice(l) && Listed(l)
    ensures Proper(a, timeout) && Sent(a) == ms && l <= Messages(Run(a, timeout).out)
  {
    hide Run, Proper, Listed, Coherent, InOrderablePart;
    var d, now := Deliverable(ms), Early(timeout);
    var rest := SomeList(ms - d);
    a := ArriveAt(l + rest, now);
    assert forall m :: m in l + rest <==> m in ms;
    AtOnceIsProper(ms, l + rest, timeout);
    PartCoherent(ms, d);
    ListComesOut(d, l, timeout);
    assert a[..|l|] == ArriveAt(l, now);
    OutGrows(a, timeout, |l|);
  }

  lemma PartCoherent(ms: set<Message>, part: set<Message>)
    requires Coherent(ms) && part <= ms
    ensures Coherent(part)
  {
  }

  /** Two messages neither of which must come first: some arrival order hands over x before y. */
  lemma XBeforeY(ms: set<Message>, x: Message, y: Message, timeout: real) returns (a: seq<Arrival>, i: nat, j: nat)
    requires Coherent(ms) && x in Deliverable(ms) && y in Deliverable(ms) && x != y
    requires !Precedes(Deliverable(ms), x, y) && !Precedes(Deliverable(ms), y, x)
    ensures Proper(a, timeout) && Sent(a) == ms && i < j < |Run(a, timeout).out|
    ensures Messages(Run(a, timeout).out)[i] == x && Messages(Run(a, timeout).out)[j] == y
  {
    hide Run, Proper, Coherent, Orderable, Listed, Precedes, Between, InOrderablePart;
    var d := Deliverable(ms);
    var rank := DeliverableRanks(ms);
    RanksAll(d, rank);
    PartCoherent(ms, d);
    var top := Highest(d, rank);
    var r := Between(d, rank, x, y, rank[top]);
    BetweenOrders(d, rank, x, y, rank[top]);
    RanksAll(d, r);
    var l := ByRank(d, r);
    RankedIsListed(d, r, l);
    a := ListComesFirst(ms, l, timeout);
    i :| 0 <= i < |l| && l[i] == x;
    j :| 0 <= j < |l| && l[j] == y;
    assert r[l[i]] < r[l[j]];
  }

  lemma RanksAll(ms: set<Message>, rank: map<Message, nat>)
    requires Orderable(ms, rank)
    ensures forall m <- ms :: m in rank
  {
  }

  ghost predicate OrderFixed(ms: set<Message>, timeout: real) {
    forall a, b | Proper(a, timeout) && Proper(b, timeout) && Sent(a) == ms && Sent(b) == ms ::
      Messages(Run(a, timeout).out) == Messages(Run(b, timeout).out)
  }

  lemma TwoOrders(ms: set<Message>, x: Message, y: Message, timeout: real)
    requires Coherent(ms) && x in Deliverable(ms) && y in Deliverable(ms) && x != y
    requires !Precedes(Deliverable(ms), x, y) && !Precedes(Deliverable(ms), y, x)
    ensures !OrderFixed(ms, timeout)
  {
    hide Run, Coherent, Precedes, Quick, Tally, Ready, InTurn, Deliverable;
    var a, i, j := XBeforeY(ms, x, y, timeout);
    var b, k, n := XBeforeY(ms, y, x, timeout);
    WaitingNotReady(a, timeout);
    var out := Run(a, timeout).out;
    NoRepeats(out);
    if Messages(out) == Messages(Run(b, timeout).out) {
      assert false;
    }
  }

  /** Every arrival order of the messages hands them over in the same order if and only if, of any two of them that can
      be handed over at all, one must come after the other. */
  lemma OrderFixedIff(ms: set<Message>, timeout: real)
    requires Coherent(ms)
    ensures OrderFixed(ms, timeout) <==> Chain(Deliverable(ms))
  {
    hide Run, Proper, Coherent, Precedes, Deliverable;
    if Chain(Deliverable(ms)) {
      forall a, b | Proper(a, timeout) && Proper(b, timeout) && Sent(a) == ms && Sent(b) == ms
        ensures Messages(Run(a, timeout).out) == Messages(Run(b, timeout).out)
      {
        ChainFixesOrder(a, b, timeout);
      }
    } else {
      var d := Deliverable(ms);
      var x, y :| x in d && y in d && x != y && !Precedes(d, x, y) && !Precedes(d, y, x);
      TwoOrders(ms, x, y, timeout);
    }
  }

  // ---- the smallest example ----

  const LEFT := Message("a", 1, map[1 := 1], 1, 1.0)
  const RIGHT := Message("b", 2, map[2 := 1], 2, 2.0)

  /** Two first messages of two senders: each node hands them over as they arrive, though the sort key puts one
      before the other. */
  lemma TwoNodesDiffer(timeout: real)
    ensures Messages(Run(ArriveAt([LEFT, RIGHT], 0.0), timeout).out) == [LEFT, RIGHT]
    ensures Messages(Run(ArriveAt([RIGHT, LEFT], 0.0), timeout).out) == [RIGHT, LEFT]
  {
    hide InTurn, Run;
    BothReady(LEFT, RIGHT);
    BothReady(RIGHT, LEFT);
    OutAsArrived(ArriveAt([LEFT, RIGHT], 0.0), timeout);
    OutAsArrived(ArriveAt([RIGHT, LEFT], 0.0), timeout);
  }

  lemma BothReady(x: Message, y: Message)
    requires (x == LEFT && y == RIGHT) || (x == RIGHT && y == LEFT)
    ensures InTurn(Stamped(ArriveAt([x, y], 0.0)))
  {
    var held := Stamped(ArriveAt([x, y], 0.0));
    assert held[..0] == [] && held[..1] == [held[0]] && held[..1][..0] == [];
    assert Tally([]) == map[];
    assert Tally(held[..1]) == map[x.sender := 1];
    assert Ready(Tally(held[..0]), held[0].msg) && Ready(Tally(held[..1]), held[1].msg);
  }
}
