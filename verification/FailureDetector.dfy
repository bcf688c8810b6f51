/** The missed-heartbeat failure detector: what its counters mean for any history of pings. */
module FailureDetection {
  datatype Ping = Ping(peer: string, responded: bool)

  /** `launched` lists the peers for which on_peer_recovered was started, in order. */
  datatype Detector = Detector(missed: map<string, nat>, status: map<string, bool>, launched: seq<string>)

  /** The locked section of _ping_peer. */
  function Pinged(d: Detector, ping: Ping, threshold: int, callback: bool): Detector
    requires ping.peer in d.missed && ping.peer in d.status
  {
    var p := ping.peer;
    if ping.responded then
      Detector(d.missed[p := 0], d.status[p := true],
               if !d.status[p] && callback then d.launched + [p] else d.launched)
    else
      var n := d.missed[p] + 1;
      Detector(d.missed[p := n], if n >= threshold then d.status[p := false] else d.status, d.launched)
  }

  predicate Tracks(d: Detector, peers: set<string>) {
    d.missed.Keys == peers && d.status.Keys == peers
  }

  predicate Starting(d: Detector, peers: set<string>) {
    Tracks(d, peers) && d.launched == [] && forall p <- peers :: d.missed[p] == 0 && d.status[p]
  }

  predicate OfPeers(trace: seq<Ping>, peers: set<string>) {
    forall k | 0 <= k < |trace| :: trace[k].peer in peers
  }

  function Watch(d: Detector, trace: seq<Ping>, threshold: int, callback: bool, peers: set<string>): (r: Detector)
    requires Tracks(d, peers) && OfPeers(trace, peers)
    ensures Tracks(r, peers)
  {
    if trace == [] then d
    else
      var before := Watch(d, trace[..|trace| - 1], threshold, callback, peers);
      Pinged(before, trace[|trace| - 1], threshold, callback)
  }

  /** The answers peer p gave, in order. */
  function Answers(trace: seq<Ping>, p: string): seq<bool> {
    if trace == [] then []
    else
      var before := Answers(trace[..|trace| - 1], p);
      if trace[|trace| - 1].peer == p then before + [trace[|trace| - 1].responded] else before
  }

  /** The last n answers exist and are all misses. */
  predicate AllMissed(answers: seq<bool>, n: nat) {
    |answers| >= n && forall k | |answers| - n <= k < |answers| :: !answers[k]
  }

  /** A threshold below one acts as one: the counter is raised before it is compared. */
  function Needed(threshold: int): nat {
    if threshold < 1 then 1 else threshold
  }

  predicate DeadAfter(trace: seq<Ping>, p: string, threshold: int) {
    AllMissed(Answers(trace, p), Needed(threshold))
  }

  /** The peers that go from dead to alive during the trace, in order, one entry for each time. */
  function Edges(trace: seq<Ping>, threshold: int): seq<string> {
    if trace == [] then []
    else
      var before := trace[..|trace| - 1];
      var p := trace[|trace| - 1].peer;
      if DeadAfter(before, p, threshold) && !DeadAfter(trace, p, threshold)
      then Edges(before, threshold) + [p] else Edges(before, threshold)
  }

  /** The counter is the length of the run of misses that ends the peer's answers. */
  predicate Counts(missed: nat, answers: seq<bool>) {
    AllMissed(answers, missed) && (missed < |answers| ==> answers[|answers| - missed - 1])
  }

  lemma CountsDecides(missed: nat, answers: seq<bool>, n: nat)
    requires Counts(missed, answers)
    ensures AllMissed(answers, n) <==> missed >= n
  {
    if missed < n <= |answers| {
      assert answers[|answers| - missed - 1];
    }
  }

  lemma CountsNext(missed: nat, answers: seq<bool>)
    requires Counts(missed, answers)
    ensures Counts(0, answers + [true]) && Counts(missed + 1, answers + [false])
  {
  }

  /** What the counter and the mark of peer p say about its answers so far. */
  predicate Agrees(d: Detector, p: string, answers: seq<bool>, threshold: int)
    requires p in d.missed && p in d.status
  {
    Counts(d.missed[p], answers) && (d.status[p] <==> d.missed[p] < Needed(threshold))
  }

  lemma PingAgrees(d: Detector, ping: Ping, p: string, answers: seq<bool>, threshold: int, callback: bool)
    requires p in d.missed && p in d.status && ping.peer in d.missed && ping.peer in d.status
    requires Agrees(d, p, answers, threshold)
    ensures var r := Pinged(d, ping, threshold, callback);
      Agrees(r, p, if ping.peer == p then answers + [ping.responded] else answers, threshold)
  {
    hide Counts;
    CountsNext(d.missed[p], answers);
  }

  lemma {:induction false} WatchAgrees(d: Detector, trace: seq<Ping>, threshold: int, callback: bool,
                                       peers: set<string>, p: string)
    requires Starting(d, peers) && OfPeers(trace, peers) && p in peers
    ensures Agrees(Watch(d, trace, threshold, callback, peers), p, Answers(trace, p), threshold)
  {
    if trace != [] {
      hide Agrees, Pinged, Starting;
      var before := trace[..|trace| - 1];
      WatchAgrees(d, before, threshold, callback, peers, p);
      PingAgrees(Watch(d, before, threshold, callback, peers), trace[|trace| - 1], p, Answers(before, p), threshold,
                 callback);
    }
  }

  /** A peer is marked dead exactly when its last `threshold` pings all missed. */
  lemma DeadExactly(d: Detector, trace: seq<Ping>, threshold: int, callback: bool, peers: set<string>, p: string)
    requires Starting(d, peers) && OfPeers(trace, peers) && p in peers
    ensures !Watch(d, trace, threshold, callback, peers).status[p] <==> DeadAfter(trace, p, threshold)
  {
    WatchAgrees(d, trace, threshold, callback, peers, p);
    CountsDecides(Watch(d, trace, threshold, callback, peers).missed[p], Answers(trace, p), Needed(threshold));
  }

  /** The recovery callback runs once for every change from dead to alive, in that order, and never else. */
  lemma {:induction false} CallbackExactly(d: Detector, trace: seq<Ping>, threshold: int, callback: bool,
                                           peers: set<string>)
    requires Starting(d, peers) && OfPeers(trace, peers)
    ensures Watch(d, trace, threshold, callback, peers).launched ==
      if callback then Edges(trace, threshold) else []
  {
    if trace != [] {
      var before := trace[..|trace| - 1];
      CallbackExactly(d, before, threshold, callback, peers);
      DeadExactly(d, before, threshold, callback, peers, trace[|trace| - 1].peer);
      DeadExactly(d, trace, threshold, callback, peers, trace[|trace| - 1].peer);
    }
  }

  function Members(s: seq<string>): set<string> {
    set p | p in s
  }

  predicate Alive(status: map<string, bool>, peer: string) {
    peer in status && status[peer]
  }

  /** The live peers in the order in which the status table lists them, each once. */
  function LivePeers(peers: seq<string>, status: map<string, bool>): (live: seq<string>)
    ensures forall p :: p in live <==> p in peers && Alive(status, p)
    ensures forall i, j | 0 <= i < j < |live| :: live[i] != live[j]
    ensures |live| <= |peers|
  {
    if peers == [] then []
    else
      var before := LivePeers(peers[..|peers| - 1], status);
      var p := peers[|peers| - 1];
      assert peers == peers[..|peers| - 1] + [p];
      if Alive(status, p) && p !in before then before + [p] else before
  }

  /** Where the peer first stands in the list. */
  ghost function FirstAt(peers: seq<string>, p: string): (k: nat)
    requires p in peers
    ensures k < |peers| && peers[k] == p && forall j | 0 <= j < k :: peers[j] != p
  {
    if peers[0] == p then 0 else 1 + FirstAt(peers[1..], p)
  }

  /** The live peers are listed, and hence tried, in the order in which the status table lists them. */
  lemma {:induction false} LiveInTableOrder(peers: seq<string>, status: map<string, bool>, i: nat, j: nat)
    requires i < j < |LivePeers(peers, status)|
    ensures var live := LivePeers(peers, status); FirstAt(peers, live[i]) < FirstAt(peers, live[j])
  {
    if peers != [] {
      var rest, live := peers[..|peers| - 1], LivePeers(peers, status);
      var before := LivePeers(rest, status);
      assert live[i] == before[i] && live[i] in rest;
      FirstStays(peers, live[i]);
      if j < |before| {
        LiveInTableOrder(rest, status, i, j);
        assert live[j] == before[j] && live[j] in rest;
        FirstStays(peers, live[j]);
      } else {
        assert live[j] !in rest;
        assert forall k | 0 <= k < |rest| :: peers[k] == rest[k] && rest[k] in rest;
      }
    }
  }

  lemma FirstStays(peers: seq<string>, p: string)
    requires peers != [] && p in peers[..|peers| - 1]
    ensures p in peers && FirstAt(peers, p) == FirstAt(peers[..|peers| - 1], p)
  {
    var rest := peers[..|peers| - 1];
    var k := FirstAt(rest, p);
    assert peers[k] == p;
    assert forall j | 0 <= j < k :: peers[j] == rest[j];
  }

  class FailureDetector {
    const peers: seq<string>
    const threshold: int
    const hasCallback: bool
    var missed: map<string, nat>
    var status: map<string, bool>
    var launched: seq<string>

    ghost function View(): Detector
      reads this
    {
      Detector(missed, status, launched)
    }

    ghost predicate Valid()
      reads this
    {
      Tracks(View(), Members(peers))
    }

    constructor (peers: seq<string>, threshold: int, hasCallback: bool)
      ensures Valid() && Starting(View(), Members(peers))
      ensures this.peers == peers && this.threshold == threshold && this.hasCallback == hasCallback
    {
      this.peers, this.threshold, this.hasCallback := peers, threshold, hasCallback;
      missed, status, launched := map[], map[], [];
      new;
      for i := 0 to |peers|
        invariant Starting(View(), Members(peers[..i]))
      {
        assert Members(peers[..i + 1]) == Members(peers[..i]) + {peers[i]};
        missed, status := missed[peers[i] := 0], status[peers[i] := true];
      }
      assert peers[..|peers|] == peers;
    }

    /** `responded` is what heartbeat_fn returned, false when it raised. */
    method PingPeer(peer: string, responded: bool)
      requires Valid() && peer in peers
      modifies this
      ensures Valid() && View() == Pinged(old(View()), Ping(peer, responded), threshold, hasCallback)
    {
      var wasAlive := status[peer];
      if responded {
        missed := missed[peer := 0];
        status := status[peer := true];
        if !wasAlive && hasCallback {
          launched := launched + [peer];
        }
      } else {
        missed := missed[peer := missed[peer] + 1];
        if missed[peer] >= threshold {
          status := status[peer := false];
        }
      }
    }

    method GetLivePeers() returns (live: seq<string>)
      requires Valid()
      ensures live == LivePeers(peers, status)
    {
      live := [];
      for i := 0 to |peers|
        invariant live == LivePeers(peers[..i], status)
      {
        assert peers[..i + 1][..i] == peers[..i];
        if status[peers[i]] && peers[i] !in live {
          live := live + [peers[i]];
        }
      }
      assert peers[..|peers|] == peers;
    }

    predicate IsAlive(peer: string)
      reads this
    {
      Alive(status, peer)
    }
  }
}
