/** When an election is won and when a client write is acknowledged: exact conditions on the state before the call. */
module RaftProgress {
  import opened RaftServer
  import opened RaftCluster
  import opened RaftInvariant
  import opened RaftSteps
  import opened RaftCalls
  import opened RaftSafety

  // ---- receive_client_message ----

  /** Peer p can be reached by i and is not in a later term. */
  predicate Receptive(c: Cluster, i: int, p: int)
    requires i in c && p in c
  {
    CanReach(c, i, p) && c[p].term <= c[i].term
  }

  /** Sending to p changes p and what i believes about p, nothing else. */
  lemma {:induction false} SendFrame(c: Cluster, i: int, p: int)
    requires i in c && p in c && i != p
    ensures var r := SendTo(c, i, p);
            && SameLeader(c[i], r[i])
            && (forall q | q in c && q != i && q != p :: r[q] == c[q])
            && (forall q | q != p :: NextOf(r[i], q) == NextOf(c[i], q) && MatchOf(r[i], q) == MatchOf(c[i], q))
    decreases NextOf(c[i], p)
  {
    hide Append;
    var (c1, ended) := SendOnce(c, i, p);
    if !ended {
      SendFrame(c1, i, p);
    }
  }

  /** The log holds an entry of the same term where the leader's log ends. */
  predicate HoldsLast(log: Log, leaderLog: Log) {
    |leaderLog| <= |log| && (leaderLog == [] || log[|leaderLog| - 1].term == LastTerm(leaderLog))
  }

  /** What one AppendEntries tells about a live peer in no later term. */
  lemma AppendAnswer(c: Cluster, i: int, p: int, next: nat)
    requires i in c && p in c && next <= |c[i].log| && c[p].active && c[p].term <= c[i].term
    ensures var (s, ok) := Append(c, i, p, next);
            && s.active && s.term == c[i].term
            && (next == 0 ==> ok) && (next == |c[i].log| ==> ok == HoldsLast(c[p].log, c[i].log))
  {
    hide Merge;
  }

  /** A live peer in no later term that has not been sent everything ends up counted for the leader's whole log. */
  lemma {:induction false} SendCounts(c: Cluster, i: int, p: int)
    requires i in c && p in c && i != p && c[p].active && c[p].term <= c[i].term && NextOf(c[i], p) < |c[i].log|
    ensures MatchOf(SendTo(c, i, p)[i], p) == |c[i].log| - 1
    decreases NextOf(c[i], p)
  {
    hide Append, SendTo, HoldsLast;
    var next := NextOf(c[i], p);
    AppendAnswer(c, i, p, next);
    SendUnfold(c, i, p);
    var (s, ok) := Append(c, i, p, next);
    if !ok {
      SendCounts(c[p := s][i := Backed(c[i], p, next - 1)], i, p);
    }
  }

  /** Peer p is receptive, and has not been sent everything or does not hold the leader's last entry. */
  predicate NewlyCounted(c: Cluster, i: int, p: int)
    requires i in c && p in c
  {
    Receptive(c, i, p) && (NextOf(c[i], p) < |c[i].log| || !HoldsLast(c[p].log, c[i].log))
  }

  /** Sending to a peer counts it for the leader's whole log exactly then. A peer that already held the log when the
      leader took office is sent nothing, so its match index stays where it was. */
  lemma SendCountsExactly(c: Cluster, i: int, p: int)
    requires i in c && p in c && i != p && CanReach(c, i, p) && NextOf(c[i], p) <= |c[i].log|
    ensures MatchOf(SendTo(c, i, p)[i], p) == if NewlyCounted(c, i, p) then |c[i].log| - 1 else MatchOf(c[i], p)
  {
    hide Append, SendTo, HoldsLast;
    var next := NextOf(c[i], p);
    if c[p].term > c[i].term {
      SendStale(c, i, p);
    } else if next < |c[i].log| {
      SendCounts(c, i, p);
    } else {
      AppendAnswer(c, i, p, next);
      SendUnfold(c, i, p);
      var (s, ok) := Append(c, i, p, next);
      if !ok {
        SendCounts(c[p := s][i := Backed(c[i], p, next - 1)], i, p);
      }
    }
  }

  /** Leader i has dealt with the peers ps. */
  ghost predicate CountsAfter(c: Cluster, r: Cluster, i: int, ps: seq<int>)
    requires i in c && i in r && c.Keys == r.Keys && forall p | p in ps :: p in c
  {
    && SameLeader(c[i], r[i])
    && (forall q | q in c && q != i && q !in ps :: r[q] == c[q])
    && (forall q | q !in ps :: NextOf(r[i], q) == NextOf(c[i], q) && MatchOf(r[i], q) == MatchOf(c[i], q))
    && forall p | p in ps ::
         MatchOf(r[i], p) == if NewlyCounted(c, i, p) then |c[i].log| - 1 else MatchOf(c[i], p)
  }

  /** What dealing with one more peer does. */
  ghost predicate CountsOne(c: Cluster, r: Cluster, i: int, p: int)
    requires i in c && i in r && c.Keys == r.Keys && p in c
  {
    && SameLeader(c[i], r[i])
    && (forall q | q in c && q != i && q != p :: r[q] == c[q])
    && (forall q | q != p :: NextOf(r[i], q) == NextOf(c[i], q) && MatchOf(r[i], q) == MatchOf(c[i], q))
    && MatchOf(r[i], p) == if NewlyCounted(c, i, p) then |c[i].log| - 1 else MatchOf(c[i], p)
  }

  lemma CountsNext(c: Cluster, c1: Cluster, r: Cluster, i: int, rest: seq<int>, p: int)
    requires i in c && c1.Keys == c.Keys && r.Keys == c.Keys && p in c && p != i && p !in rest && i !in rest
    requires (forall q | q in rest :: q in c) && CountsAfter(c, c1, i, rest) && CountsOne(c1, r, i, p)
    ensures CountsAfter(c, r, i, rest + [p])
  {
    hide MatchOf, NextOf, HoldsLast;
    assert NewlyCounted(c1, i, p) == NewlyCounted(c, i, p);
  }

  lemma SendCountsOne(c: Cluster, i: int, p: int)
    requires i in c && p in c && i != p && NextOf(c[i], p) <= |c[i].log|
    ensures CountsOne(c, if CanReach(c, i, p) then SendTo(c, i, p) else c, i, p)
  {
    hide SendTo, MatchOf, NextOf, HoldsLast;
    SendFrame(c, i, p);
    if CanReach(c, i, p) {
      SendCountsExactly(c, i, p);
    }
  }

  /** After replicating to ps, the leader's match index has moved to the end of its log exactly at the receptive peers
      that had not been sent everything or did not hold its last entry. */
  lemma {:induction false} ReplicateCounts(c: Cluster, i: int, ps: seq<int>)
    requires i in c && i !in ps && NoDup(ps) && forall p | p in ps :: p in c
    requires forall p | p in ps :: NextOf(c[i], p) <= |c[i].log|
    ensures CountsAfter(c, Replicate(c, i, ps), i, ps)
  {
    hide SendTo, MatchOf, NextOf, CountsOne, CanReach;
    if ps != [] {
      var p := ps[|ps| - 1];
      var rest := ps[..|ps| - 1];
      ReplicateCounts(c, i, rest);
      var c1 := Replicate(c, i, rest);
      assert ps == rest + [p] && p !in rest;
      SendCountsOne(c1, i, p);
      CountsNext(c, c1, Replicate(c, i, ps), i, rest, p);
    }
  }

  lemma {:induction false} CountOf(s: Server, ps: seq<int>, n: int, counted: set<int>)
    requires NoDup(ps) && forall p | p in ps :: p in counted <==> MatchOf(s, p) >= n
    ensures AckCount(s, ps, n) == 1 + |set p | p in ps && p in counted|
  {
    var all := set p | p in ps && p in counted;
    if ps == [] {
      assert all == {};
    } else {
      var p := ps[|ps| - 1];
      var rest := ps[..|ps| - 1];
      CountOf(s, rest, n, counted);
      assert ps == rest + [p] && p !in rest;
      assert all == (set q | q in rest && q in counted) + if p in counted then {p} else {};
    }
  }

  ghost function ReceptivePeers(c: Cluster, i: int): set<int>
    requires Mesh(c) && i in c
  {
    set p | p in c && p in c[i].peers && Receptive(c, i, p)
  }

  /** commit_entries reaches the last entry exactly when that entry is committable. */
  lemma CommitReachesLast(s: Server)
    requires s.role == Leader && s.commitIndex < |s.log| - 1
    ensures Commit(s).commitIndex >= |s.log| - 1 <==> Committable(s, |s.log| - 1)
  {
    hide Committable;
  }

  /** commit_entries moves to the highest committable entry above the commit point, and stays put if there is none. */
  lemma {:induction false} ScanIsHighest(s: Server, top: int, n: int)
    requires s.commitIndex <= top < |s.log| && CommitScan(s, top) < n <= top
    ensures !Committable(s, n)
    decreases top
  {
    if n < top {
      ScanIsHighest(s, top - 1, n);
    }
  }

  lemma CommitIsHighest(s: Server)
    requires s.role == Leader && s.commitIndex < |s.log|
    ensures var r := Commit(s).commitIndex;
            && (r == s.commitIndex || (s.commitIndex < r < |s.log| && Committable(s, r)))
            && forall n | r < n < |s.log| :: !Committable(s, n)
  {
    hide Committable;
    ScanFinds(s, |s.log| - 1);
    forall n | Commit(s).commitIndex < n < |s.log|
      ensures !Committable(s, n)
    {
      ScanIsHighest(s, |s.log| - 1, n);
    }
  }

  /** What a leader believes about its peers and commits lies inside its log. */
  predicate InLog(s: Server) {
    s.commitIndex < |s.log| && forall p | p in s.peers :: NextOf(s, p) <= |s.log| && MatchOf(s, p) < |s.log|
  }

  lemma LeaderInLog(c: Cluster, h: History, i: int)
    requires Inv(c, h) && i in c && c[i].role == Leader
    ensures InLog(c[i])
  {
    Parts(c, h, i);
    CommitBound(c, h, i);
    forall p | p in c[i].peers ensures NextOf(c[i], p) <= |c[i].log| && MatchOf(c[i], p) < |c[i].log| {
      assert MatchOk(h, c[i], p);
      AckBound(c, h, p, c[i].term);
    }
  }

  /** With one more entry in its log, leader i lacks that entry at every peer. */
  lemma NewEntryLacking(c: Cluster, c1: Cluster, i: int, p: int)
    requires i in c && p in c && c1.Keys == c.Keys && c1[p] == c[p] && NextOf(c1[i], p) < |c1[i].log|
    requires c1[i].term == c[i].term && c1[i].partitionedFrom == c[i].partitionedFrom
    ensures NewlyCounted(c1, i, p) == Receptive(c, i, p)
  {
  }

  /** So it comes to count exactly the receptive ones. */
  lemma ReplicatedCount(c: Cluster, i: int, message: string)
    requires Mesh(c) && i in c
    requires forall p | p in c[i].peers :: NextOf(c[i], p) <= |c[i].log| && MatchOf(c[i], p) < |c[i].log|
    ensures var c1 := c[i := c[i].(log := c[i].log + [LogEntry(c[i].term, message)])];
            MeshAt(c1, i) && Mesh(c) &&
            var s := Replicate(c1, i, c[i].peers)[i];
            SameLeader(c1[i], s) && AckCount(s, c[i].peers, |c[i].log|) == 1 + |ReceptivePeers(c, i)|
  {
    hide Replicate, AckCount, HoldsLast, Receptive, NewlyCounted;
    var c1 := c[i := c[i].(log := c[i].log + [LogEntry(c[i].term, message)])];
    var ps := c[i].peers;
    assert MeshAt(c, i);
    forall p | p in ps ensures NextOf(c1[i], p) < |c1[i].log| && NewlyCounted(c1, i, p) == Receptive(c, i, p) {
      NewEntryLacking(c, c1, i, p);
    }
    ReplicateCounts(c1, i, ps);
    CountOf(Replicate(c1, i, ps)[i], ps, |c[i].log|, ReceptivePeers(c, i));
    assert (set p | p in ps && p in ReceptivePeers(c, i)) == ReceptivePeers(c, i);
  }

  lemma ClientCommitsIff(c: Cluster, i: int, message: string)
    requires Mesh(c) && i in c && (c[i].role == Leader ==> InLog(c[i]))
    ensures ClientMessage(c, i, message).1 <==>
      c[i].active && c[i].role == Leader && IsMajority(1 + |ReceptivePeers(c, i)|, |c[i].peers| + 1)
  {
    hide Replicate, AckCount, ReceptivePeers, Commit;
    if c[i].active && c[i].role == Leader {
      ReplicatedCount(c, i, message);
      var c1 := c[i := c[i].(log := c[i].log + [LogEntry(c[i].term, message)])];
      var s := Replicate(c1, i, c[i].peers)[i];
      CommitReachesLast(s);
      CommitKeepsLog(s);
    }
  }

  lemma CommitKeepsLog(s: Server)
    ensures Commit(s).log == s.log
  {
  }

  lemma AckBound(c: Cluster, h: History, p: int, t: nat)
    requires Inv(c, h) && t in h.reigns
    ensures Ack(h, p, t) <= |h.reigns[t].log|
  {
    assert AckOk(c, h, p, t);
  }

  /** A client write is acknowledged exactly when this server is a live leader and, with itself, the peers that it
      can reach and that are in no later term form a majority. */
  lemma AcknowledgedIff(c0: Cluster, acts: seq<Action>, k: nat, i: int, message: string)
    requires Admissible(c0, acts) && k <= |acts| && i in c0
    ensures var c := State(c0, acts, k);
      ClientMessage(c, i, message).1 <==>
        c[i].active && c[i].role == Leader && IsMajority(1 + |ReceptivePeers(c, i)|, |c[i].peers| + 1)
  {
    hide Inv, Advances, Next, State, ClientMessage, ReceptivePeers, InLog;
    var hs := RunOk(c0, acts, k);
    var c := State(c0, acts, k);
    if c[i].role == Leader {
      LeaderInLog(c, hs[k], i);
    }
    ClientCommitsIff(c, i, message);
  }

  /** A stale leader is never answered True: once any server has led a later term, no write of a server
      in an earlier term is acknowledged. */
  lemma StaleLeaderRefused(c0: Cluster, acts: seq<Action>, m: nat, k: nat, i: int, message: string, j: int, t: nat)
    requires Admissible(c0, acts) && m <= k <= |acts| && i in c0
    requires Leads(State(c0, acts, m), j, t) && State(c0, acts, k)[i].term < t
    ensures !ClientMessage(State(c0, acts, k), i, message).1
  {
    hide Inv, Advances, Next, State, ClientMessage, ReceptivePeers;
    var hs := RunOk(c0, acts, k);
    ReignStays(State(c0, acts, m), hs[m], State(c0, acts, k), hs[k], j, t);
    AcknowledgedIff(c0, acts, k, i, message);
    LaterTermBlocks(State(c0, acts, k), hs[k], i, t);
  }

  lemma ReignStays(c: Cluster, h: History, d: Cluster, g: History, j: int, t: nat)
    requires Inv(c, h) && Keeps(c, h, d, g) && Leads(c, j, t)
    ensures t in g.reigns
  {
    hide Inv;
    Parts(c, h, j);
  }

  lemma LaterTermBlocks(c: Cluster, h: History, i: int, t: nat)
    requires Inv(c, h) && Mesh(c) && i in c && c[i].term < t && t in h.reigns
    ensures !IsMajority(1 + |ReceptivePeers(c, i)|, |c[i].peers| + 1)
  {
    hide LogOk, AcksOk, ServersOk, Complete, CommitsOk, CanReach;
    assert ReignOk(c, h, t) && MeshAt(c, i);
    MeshSize(c, i);
    var own := ReceptivePeers(c, i) + {i};
    assert |own| == 1 + |ReceptivePeers(c, i)|;
    var q := AtOrPast(c, t);
    assert forall v | v in q :: v !in own;
    BlocksExcludes(c, q, own);
  }

  // ---- start_election ----

  /** Peer p can be reached by i and would grant i its vote in the next term. */
  predicate Grants(c: Cluster, i: int, p: int)
    requires i in c && p in c
  {
    CanReach(c, i, p) && c[p].term <= c[i].term + 1 &&
    (c[p].term <= c[i].term || c[p].votedFor == None || c[p].votedFor == Some(i)) &&
    UpToDate(|c[i].log| - 1, LastTerm(c[i].log), c[p].log)
  }

  /** Asking p, whom nobody has asked yet, adds a vote exactly when p grants it. */
  lemma AskCounts(c: Cluster, c1: Cluster, votes: nat, i: int, p: int)
    requires i in c && p in c && i in c1 && p in c1 && i != p && c1[i] == Candidacy(c[i], i) && c1[p] == c[p]
    ensures var r := AskStep(c1, votes, i, p);
            && r.1 == votes + (if Grants(c, i, p) then 1 else 0)
            && forall q | q in c1 && q != p :: r.0[q] == c1[q]
  {
  }

  ghost function Granting(c: Cluster, i: int, ps: seq<int>): set<int>
    requires i in c
  {
    set p | p in c && p in ps && Grants(c, i, p)
  }

  lemma GrantingNext(c: Cluster, i: int, ps: seq<int>, p: int)
    requires i in c && p in c && p !in ps
    ensures |Granting(c, i, ps + [p])| == |Granting(c, i, ps)| + if Grants(c, i, p) then 1 else 0
  {
    hide Grants;
    assert Granting(c, i, ps + [p]) == Granting(c, i, ps) + if Grants(c, i, p) then {p} else {};
  }

  lemma GrantingNone(c: Cluster, i: int)
    requires i in c
    ensures Granting(c, i, []) == {}
  {
  }

  lemma {:induction false} VotesCounted(c: Cluster, i: int, ps: seq<int>)
    requires i in c && i !in ps && NoDup(ps) && forall p | p in ps :: p in c
    ensures var r := CollectVotes(c[i := Candidacy(c[i], i)], i, ps);
            && r.0[i] == Candidacy(c[i], i) && (forall q | q in c && q != i && q !in ps :: r.0[q] == c[q])
            && r.1 == 1 + |Granting(c, i, ps)|
  {
    hide AskStep, Grants, Candidacy, Granting;
    if ps == [] {
      GrantingNone(c, i);
    } else {
      var p := ps[|ps| - 1];
      var rest := ps[..|ps| - 1];
      VotesCounted(c, i, rest);
      assert ps == rest + [p] && p !in rest;
      GrantingNext(c, i, rest, p);
      var (c1, votes) := CollectVotes(c[i := Candidacy(c[i], i)], i, rest);
      AskCounts(c, c1, votes, i, p);
    }
  }

  ghost function GrantingPeers(c: Cluster, i: int): set<int>
    requires Mesh(c) && i in c
  {
    Granting(c, i, c[i].peers)
  }

  /** An election is won exactly when the server is live and, with itself, the reachable peers that are in no later
      term, have not voted for another in it and are not more up to date form a majority. */
  lemma ElectionWonIff(c: Cluster, i: int)
    requires Mesh(c) && i in c
    ensures RaftCluster.StartElection(c, i).1 <==>
      c[i].active && IsMajority(1 + |GrantingPeers(c, i)|, |c[i].peers| + 1)
  {
    hide CollectVotes, Heartbeats;
    assert MeshAt(c, i);
    VotesCounted(c, i, c[i].peers);
  }

  // ---- what a won election establishes ----

  /** Peer p after the vote requests. */
  function Asked(c: Cluster, i: int, p: int): Server
    requires i in c && p in c
  {
    if CanReach(c, i, p)
    then HandleVote(c[p], i, c[i].term + 1, |c[i].log| - 1, LastTerm(c[i].log)).0
    else c[p]
  }

  lemma AskLeaves(c: Cluster, c1: Cluster, votes: nat, i: int, p: int)
    requires i in c && p in c && i in c1 && p in c1 && i != p && c1[i] == Candidacy(c[i], i) && c1[p] == c[p]
    ensures var r := AskStep(c1, votes, i, p).0; r[p] == Asked(c, i, p) && forall q | q in c1 && q != p :: r[q] == c1[q]
  {
    hide HandleVote;
  }

  lemma {:induction false} VotesLeave(c: Cluster, i: int, ps: seq<int>)
    requires i in c && i !in ps && NoDup(ps) && forall p | p in ps :: p in c
    ensures var r := CollectVotes(c[i := Candidacy(c[i], i)], i, ps).0;
            && r[i] == Candidacy(c[i], i)
            && forall p | p in c && p != i :: r[p] == if p in ps then Asked(c, i, p) else c[p]
  {
    hide AskStep, Asked, Candidacy;
    if ps != [] {
      var p := ps[|ps| - 1];
      var rest := ps[..|ps| - 1];
      VotesLeave(c, i, rest);
      assert ps == rest + [p] && p !in rest;
      var (c1, votes) := CollectVotes(c[i := Candidacy(c[i], i)], i, rest);
      AskLeaves(c, c1, votes, i, p);
    }
  }

  /** Peer p after the first heartbeat of leader i. */
  function Beaten(c: Cluster, i: int, p: int): Server
    requires i in c && p in c
  {
    if CanReach(c, i, p)
    then
      var next := NextOf(c[i], p);
      HandleAppend(c[p], i, c[i].term, next - 1, PrevTerm(c[i].log, next), [], c[i].commitIndex).0
    else c[p]
  }

  lemma BeatLeaves(c: Cluster, c1: Cluster, i: int, p: int)
    requires i in c && p in c && i in c1 && p in c1 && i != p && c1[i] == c[i] && c1[p] == c[p]
    ensures var r := BeatStep(c1, i, p); r[p] == Beaten(c, i, p) && forall q | q in c1 && q != p :: r[q] == c1[q]
  {
    hide HandleAppend;
  }

  lemma {:induction false} BeatsLeave(c: Cluster, i: int, ps: seq<int>)
    requires i in c && i !in ps && NoDup(ps) && forall p | p in ps :: p in c
    ensures var r := Heartbeats(c, i, ps);
            r[i] == c[i] && forall p | p in c && p != i :: r[p] == if p in ps then Beaten(c, i, p) else c[p]
  {
    hide BeatStep, Beaten;
    if ps != [] {
      var p := ps[|ps| - 1];
      var rest := ps[..|ps| - 1];
      BeatsLeave(c, i, rest);
      assert ps == rest + [p] && p !in rest;
      BeatLeaves(c, Heartbeats(c, i, rest), i, p);
    }
  }

  /** p recognises i as the leader of term t. */
  predicate Recognises(s: Server, i: int, t: nat) {
    s.role == Follower && s.leaderId == i && s.term == t
  }

  /** What a vote request and a first heartbeat in the same term do to a reachable peer in no later term. */
  lemma VoteThenBeat(s: Server, i: int, t: nat, lastIndex: int, lastTerm: nat,
                     prev: Index, prevTerm: nat, commit: Index)
    requires s.active && s.term <= t && s.commitIndex < |s.log|
    ensures var r := HandleAppend(HandleVote(s, i, t, lastIndex, lastTerm).0, i, t, prev, prevTerm, [], commit).0;
            && Recognises(r, i, t)
            && r.log == (if 0 <= prev < |s.log| && s.log[prev].term != prevTerm then s.log[..prev] else s.log)
            && (prev < |s.log| && (prev >= 0 ==> s.log[prev].term == prevTerm) ==>
                  r.commitIndex >= Min(commit, |s.log| - 1))
  {
    assert Merge(s.log, if prev < |s.log| then prev + 1 else 0, []) == s.log;
  }

  ghost predicate Follows(c: Cluster, r: Cluster, i: int, p: int)
    requires i in c && p in c && p in r
  {
    && Recognises(r[p], i, c[i].term + 1)
    && (HoldsLast(c[p].log, c[i].log) ==> r[p].commitIndex >= c[i].commitIndex)
    && r[p].log == if |c[i].log| <= |c[p].log| && !HoldsLast(c[p].log, c[i].log) then c[p].log[..|c[i].log| - 1]
                   else c[p].log
  }

  /** A won election leaves every reachable peer that was in no later term a follower of the winner in its term. A peer
      whose log holds the winner's last entry has also learned the winner's commit point; one that has an entry of
      another term in its place has lost that entry and all after it; every other log is as it was. */
  lemma WinnerIsFollowed(c0: Cluster, acts: seq<Action>, k: nat, i: int, p: int)
    requires Admissible(c0, acts) && k <= |acts| && i in c0 && p in c0 && i != p
    requires RaftCluster.StartElection(State(c0, acts, k), i).1
    ensures var c := State(c0, acts, k);
            var r := RaftCluster.StartElection(c, i).0;
            && Leads(r, i, c[i].term + 1)
            && (CanReach(c, i, p) && c[p].term <= c[i].term + 1 ==> Follows(c, r, i, p))
  {
    hide Inv, Advances, Next, State, RaftCluster.StartElection, Follows;
    var hs := RunOk(c0, acts, k);
    var c := State(c0, acts, k);
    CommitBound(c, hs[k], i);
    CommitBound(c, hs[k], p);
    ElectionLeaves(c, i, p);
    if CanReach(c, i, p) && c[p].term <= c[i].term + 1 {
      ReachedFollows(c, RaftCluster.StartElection(c, i).0, i, p);
    }
  }

  lemma ElectionLeaves(c: Cluster, i: int, p: int)
    requires Mesh(c) && i in c && p in c && i != p && RaftCluster.StartElection(c, i).1
    ensures var r := RaftCluster.StartElection(c, i).0;
            Leads(r, i, c[i].term + 1) && (CanReach(c, i, p) ==> r[p] == Reached(c, i, p))
  {
    hide CollectVotes, Heartbeats, Asked, Beaten, Reached, Crowned, CanReach;
    assert MeshAt(c, i);
    var ps := c[i].peers;
    VotesLeave(c, i, ps);
    var c1 := CollectVotes(c[i := Candidacy(c[i], i)], i, ps).0;
    CrownedLeads(Candidacy(c[i], i), i);
    BeatsLeave(c1[i := Crowned(c1[i], i)], i, ps);
    if CanReach(c, i, p) {
      BeatenIsReached(c, c1[i := Crowned(c1[i], i)], i, p);
    }
  }

  lemma CrownedLeads(s: Server, i: int)
    ensures var r := Crowned(s, i);
            r.role == Leader && r.term == s.term && r.votedFor == s.votedFor && r.peers == s.peers
  {
  }

  lemma BeatenIsReached(c: Cluster, c2: Cluster, i: int, p: int)
    requires i in c && p in c && i in c2 && p in c2 && CanReach(c, i, p) && p in c[i].peers
    requires c2[i] == Crowned(Candidacy(c[i], i), i) && c2[p] == Asked(c, i, p)
    ensures Beaten(c2, i, p) == Reached(c, i, p)
  {
    hide HandleVote, HandleAppend;
    VoteKeepsReach(c[p], i, c[i].term + 1, |c[i].log| - 1, LastTerm(c[i].log));
  }

  /** A reachable peer after the vote request and the first heartbeat. */
  function Reached(c: Cluster, i: int, p: int): Server
    requires i in c && p in c
  {
    var log := c[i].log;
    HandleAppend(HandleVote(c[p], i, c[i].term + 1, |log| - 1, LastTerm(log)).0,
                 i, c[i].term + 1, |log| - 1, PrevTerm(log, |log|), [], c[i].commitIndex).0
  }

  lemma ReachedFollows(c: Cluster, r: Cluster, i: int, p: int)
    requires i in c && p in c && p in r && r[p] == Reached(c, i, p)
    requires c[p].active && c[p].term <= c[i].term + 1
    requires c[i].commitIndex < |c[i].log| && c[p].commitIndex < |c[p].log|
    ensures Follows(c, r, i, p)
  {
    hide HandleVote, HandleAppend;
    VoteThenBeat(c[p], i, c[i].term + 1, |c[i].log| - 1, LastTerm(c[i].log), |c[i].log| - 1,
                 PrevTerm(c[i].log, |c[i].log|), c[i].commitIndex);
  }

  lemma VoteKeepsReach(s: Server, i: int, t: nat, lastIndex: int, lastTerm: nat)
    ensures var r := HandleVote(s, i, t, lastIndex, lastTerm).0;
            r.active == s.active && r.partitionedFrom == s.partitionedFrom
  {
  }
}
