/** The causal reorder buffer: what one call of try_deliver does, as functions. The class in
    ReorderBuffer.dfy does the same in place. */
module Reorderer {

  /** Clock keys are node ids; the two spellings of a key (number or string) are one key here. */
  datatype Message = Message(id: string, sender: int, clock: map<int, int>, lamport: int, timestamp: real)

  /** A message in the buffer, with its arrival time. */
  datatype Held = Held(msg: Message, at: real)

  /** Highest delivered sequence number of each sender; an absent sender counts as 0. */
  type Counters = map<int, int>

  function Seen(d: Counters, n: int): int {
    if n in d then d[n] else 0
  }

  function SeqOf(m: Message): int {
    if m.sender in m.clock then m.clock[m.sender] else 0
  }

  /** _can_deliver */
  predicate Ready(d: Counters, m: Message) {
    forall n | n in m.clock ::
      if n == m.sender then m.clock[n] == Seen(d, n) + 1 else m.clock[n] <= Seen(d, n)
  }

  /** _mark_delivered, on the counters */
  function Mark(d: Counters, m: Message): Counters {
    if SeqOf(m) > Seen(d, m.sender) then d[m.sender := SeqOf(m)] else d
  }

  predicate TimedOut(h: Held, now: real, timeout: real) {
    now - h.at >= timeout
  }

  // ---- the sort ----

  /** _sort_key order: Lamport time first, then timestamp. */
  predicate KeyLeq(a: Held, b: Held) {
    a.msg.lamport < b.msg.lamport || (a.msg.lamport == b.msg.lamport && a.msg.timestamp <= b.msg.timestamp)
  }

  /** Put h after everything that is not later. */
  function Insert(s: seq<Held>, h: Held): (r: seq<Held>)
    ensures multiset(r) == multiset(s) + multiset{h}
  {
    if s == [] || KeyLeq(s[|s| - 1], h) then s + [h]
    else
      assert s == s[..|s| - 1] + [s[|s| - 1]];
      Insert(s[..|s| - 1], h) + [s[|s| - 1]]
  }

  function SortByKey(s: seq<Held>): (r: seq<Held>)
    ensures multiset(r) == multiset(s) && |r| == |s|
  {
    if s == [] then []
    else
      assert s == s[..|s| - 1] + [s[|s| - 1]];
      assert |multiset(s)| == |s|;
      var r := Insert(SortByKey(s[..|s| - 1]), s[|s| - 1]);
      assert |multiset(r)| == |r|;
      r
  }

  // ---- one sweep over the buffer ----

  datatype Sweep = Sweep(delivered: Counters, ids: set<string>, out: seq<Held>, kept: seq<Held>)

  /** The body of the inner loop. */
  function Visit(w: Sweep, h: Held, now: real, timeout: real): Sweep {
    if Ready(w.delivered, h.msg) || TimedOut(h, now, timeout)
    then Sweep(Mark(w.delivered, h.msg), w.ids + {h.msg.id}, w.out + [h], w.kept)
    else w.(kept := w.kept + [h])
  }

  function SweepOver(d: Counters, ids: set<string>, held: seq<Held>, now: real, timeout: real): Sweep {
    if held == [] then Sweep(d, ids, [], [])
    else Visit(SweepOver(d, ids, held[..|held| - 1], now, timeout), held[|held| - 1], now, timeout)
  }

  datatype State = State(delivered: Counters, ids: set<string>, buffer: seq<Held>)

  lemma {:induction false} SweepCounts(d: Counters, ids: set<string>, held: seq<Held>, now: real, timeout: real)
    ensures var w := SweepOver(d, ids, held, now, timeout); |w.out| + |w.kept| == |held|
  {
    if held != [] {
      SweepCounts(d, ids, held[..|held| - 1], now, timeout);
    }
  }

  /** _flush: sort and sweep until a sweep delivers nothing. */
  function Flush(s: State, now: real, timeout: real): (State, seq<Held>)
    decreases |s.buffer|
  {
    var w := SweepOver(s.delivered, s.ids, SortByKey(s.buffer), now, timeout);
    SweepCounts(s.delivered, s.ids, SortByKey(s.buffer), now, timeout);
    var s1 := State(w.delivered, w.ids, w.kept);
    if w.out == [] then (s1, []) else
    var (s2, out) := Flush(s1, now, timeout);
    (s2, w.out + out)
  }

  /** One round of the outer loop. */
  lemma FlushRound(s: State, now: real, timeout: real, prior: seq<Held>)
    ensures var w := SweepOver(s.delivered, s.ids, SortByKey(s.buffer), now, timeout);
            var s1 := State(w.delivered, w.ids, w.kept);
            && |w.out| + |w.kept| == |s.buffer|
            && (w.out == [] ==> Flush(s, now, timeout) == (s1, []))
            && (w.out != [] ==> Flush(s, now, timeout).0 == Flush(s1, now, timeout).0)
            && prior + Flush(s, now, timeout).1 ==
               prior + w.out + (if w.out == [] then [] else Flush(s1, now, timeout).1)
  {
    hide SweepOver, SortByKey;
    SweepCounts(s.delivered, s.ids, SortByKey(s.buffer), now, timeout);
  }

  function TryDeliver(s: State, m: Message, at: real, now: real, timeout: real): (State, seq<Held>) {
    if m.id in s.ids then (s, [])
    else Flush(s.(buffer := s.buffer + [Held(m, at)]), now, timeout)
  }

  // ---- meaning of the sort ----

  ghost predicate SortedByKey(s: seq<Held>) {
    forall i, j | 0 <= i < j < |s| :: KeyLeq(s[i], s[j])
  }

  lemma SortedAppend(s: seq<Held>, x: Held)
    requires SortedByKey(s) && forall y | y in s :: KeyLeq(y, x)
    ensures SortedByKey(s + [x])
  {
  }

  lemma {:induction false} InsertSorted(s: seq<Held>, h: Held)
    requires SortedByKey(s)
    ensures SortedByKey(Insert(s, h))
    ensures forall x | x in Insert(s, h) :: x in s || x == h
  {
    if s == [] {
    } else if KeyLeq(s[|s| - 1], h) {
      forall y | y in s ensures KeyLeq(y, h) {
        var i :| 0 <= i < |s| && s[i] == y;
        assert i < |s| - 1 ==> KeyLeq(s[i], s[|s| - 1]);
      }
      SortedAppend(s, h);
    } else {
      var rest, l := s[..|s| - 1], s[|s| - 1];
      InsertSorted(rest, h);
      forall y | y in Insert(rest, h) ensures KeyLeq(y, l) {
        if y in rest {
          var i :| 0 <= i < |rest| && rest[i] == y;
          assert KeyLeq(s[i], l);
        }
      }
      SortedAppend(Insert(rest, h), l);
    }
  }

  /** By Lamport time, then by timestamp. */
  predicate NoLater(a: Message, b: Message) {
    a.lamport < b.lamport || (a.lamport == b.lamport && a.timestamp <= b.timestamp)
  }

  /** The sort orders by Lamport time and then by timestamp, keeps every message, and keeps the order of messages that
      have both in common. */
  lemma {:induction false} SortSorts(s: seq<Held>)
    ensures forall i, j | 0 <= i < j < |s| :: NoLater(SortByKey(s)[i].msg, SortByKey(s)[j].msg)
    ensures SortedByKey(SortByKey(s)) && multiset(SortByKey(s)) == multiset(s)
    ensures forall k: Held :: SameKey(SortByKey(s), k) == SameKey(s, k)
  {
    if s != [] {
      var rest := s[..|s| - 1];
      SortSorts(rest);
      InsertSorted(SortByKey(rest), s[|s| - 1]);
      forall k: Held ensures SameKey(SortByKey(s), k) == SameKey(s, k) {
        InsertStable(SortByKey(rest), s[|s| - 1], k);
      }
    }
  }

  /** The messages of s whose key equals k's, in order. */
  ghost function SameKey(s: seq<Held>, k: Held): seq<Held> {
    if s == [] then [] else
    var l := s[|s| - 1];
    SameKey(s[..|s| - 1], k) + OnKey(l, k)
  }

  /** h alone, if its key equals k's. */
  ghost function OnKey(h: Held, k: Held): seq<Held> {
    if h.msg.lamport == k.msg.lamport && h.msg.timestamp == k.msg.timestamp then [h] else []
  }

  lemma SameKeyLast(s: seq<Held>, h: Held, k: Held)
    ensures SameKey(s + [h], k) == SameKey(s, k) + OnKey(h, k)
  {
    assert (s + [h])[..|s|] == s;
  }

  lemma Commute(a: seq<Held>, x: seq<Held>, y: seq<Held>)
    requires x == [] || y == []
    ensures a + x + y == a + y + x
  {
  }

  lemma {:induction false} InsertStable(s: seq<Held>, h: Held, k: Held)
    requires SortedByKey(s)
    ensures SameKey(Insert(s, h), k) == SameKey(s, k) + OnKey(h, k)
  {
    hide SameKey;
    if s == [] || KeyLeq(s[|s| - 1], h) {
      SameKeyLast(s, h, k);
    } else {
      var rest, l := s[..|s| - 1], s[|s| - 1];
      assert s == rest + [l];
      InsertStable(rest, h, k);
      SameKeyLast(rest, l, k);
      SameKeyLast(Insert(rest, h), l, k);
      Commute(SameKey(rest, k), OnKey(h, k), OnKey(l, k));
    }
  }
}
