/** Availability: a live majority whose servers reach one another elects a leader that accepts writes, whatever state
    the cluster is in. */
module RaftAvailability {
  import opened RaftServer
  import opened RaftCluster
  import opened RaftInvariant
  import opened RaftCalls
  import opened RaftSafety
  import opened RaftProgress
  import opened RaftElections

  // ---- the winner can write ----

  lemma WinnerState(c: Cluster, i: int)
    requires Mesh(c) && i in c && RaftCluster.StartElection(c, i).1
    ensures RaftCluster.StartElection(c, i).0[i] == Crowned(Candidacy(c[i], i), i)
  {
    hide CollectVotes, Heartbeats, Crowned;
    assert MeshAt(c, i);
    var ps := c[i].peers;
    VotesLeave(c, i, ps);
    var c1 := CollectVotes(c[i := Candidacy(c[i], i)], i, ps).0;
    CrownedLeads(Candidacy(c[i], i), i);
    BeatsLeave(c1[i := Crowned(c1[i], i)], i, ps);
  }

  /** Whoever granted its vote is receptive to the winner. */
  lemma GrantedIsReceptive(c: Cluster, r: Cluster, i: int, p: int)
    requires i in c && p in c && i in r && p in r && i != p && Grants(c, i, p)
    requires r[i] == Crowned(Candidacy(c[i], i), i) && r[p] == Reached(c, i, p)
    ensures Receptive(r, i, p)
  {
    hide HandleVote, HandleAppend, UpToDate;
    var log, t := c[i].log, c[i].term + 1;
    VoteKeepsReach(c[p], i, t, |log| - 1, LastTerm(log));
    VoteRaisesTo(c[p], i, t, |log| - 1, LastTerm(log));
    AppendKeepsReach(HandleVote(c[p], i, t, |log| - 1, LastTerm(log)).0, i, t, |log| - 1, PrevTerm(log, |log|),
                     c[i].commitIndex);
  }

  lemma VoteRaisesTo(s: Server, i: int, t: nat, lastIndex: int, lastTerm: nat)
    requires s.active && s.term <= t
    ensures HandleVote(s, i, t, lastIndex, lastTerm).0.term == t
  {
  }

  lemma AppendKeepsReach(s: Server, i: int, t: nat, prev: Index, prevTerm: nat, commit: Index)
    requires s.active && s.term <= t
    ensures var r := HandleAppend(s, i, t, prev, prevTerm, [], commit).0;
            r.active && r.partitionedFrom == s.partitionedFrom && r.term == t
  {
  }

  lemma VotersAreReceptive(c: Cluster, i: int)
    requires Mesh(c) && i in c && RaftCluster.StartElection(c, i).1
    ensures var r := RaftCluster.StartElection(c, i).0;
            Mesh(r) && GrantingPeers(c, i) <= ReceptivePeers(r, i) && r[i].peers == c[i].peers
  {
    hide RaftCluster.StartElection, Mesh, Grants, Reached, Receptive, Crowned;
    var r := RaftCluster.StartElection(c, i).0;
    MeshStays(c, r);
    WinnerState(c, i);
    forall p | p in GrantingPeers(c, i) ensures p in ReceptivePeers(r, i) {
      ReachesGranter(c, i, p);
      ElectionLeaves(c, i, p);
      GrantedIsReceptive(c, r, i, p);
    }
  }

  lemma ReachesGranter(c: Cluster, i: int, p: int)
    requires Mesh(c) && i in c && p in GrantingPeers(c, i)
    ensures i != p && CanReach(c, i, p)
  {
    assert MeshAt(c, i);
  }

  /** A leader just elected believes in nothing past its log. */
  lemma WinnerInLog(s: Server, i: int)
    ensures var r := Crowned(Candidacy(s, i), i);
            && (s.active ==> r.active) && r.role == Leader && r.log == s.log && r.commitIndex == s.commitIndex
            && (s.commitIndex < |s.log| ==> InLog(r))
            && forall p | p in r.peers :: NextOf(r, p) <= |r.log|
  {
  }

  /** A commit point at or past the end of the log, which only inadmissible runs could have, counts as reached. */
  lemma PastTheEnd(c: Cluster, i: int, message: string)
    requires Mesh(c) && i in c && c[i].active && c[i].role == Leader && c[i].commitIndex >= |c[i].log|
    requires forall p | p in c[i].peers :: NextOf(c[i], p) <= |c[i].log|
    ensures ClientMessage(c, i, message).1
  {
    hide Replicate;
    var c1 := c[i := c[i].(log := c[i].log + [LogEntry(c[i].term, message)])];
    assert MeshAt(c, i);
    ReplicateCounts(c1, i, c[i].peers);
  }

  /** From any state: the first write at the winner of an election is acknowledged. */
  lemma WinnerCanWrite(c: Cluster, i: int, message: string)
    requires Mesh(c) && i in c && RaftCluster.StartElection(c, i).1
    ensures var r := RaftCluster.StartElection(c, i).0; Mesh(r) && ClientMessage(r, i, message).1
  {
    hide RaftCluster.StartElection, Mesh, ClientMessage, Crowned, InLog, GrantingPeers, ReceptivePeers;
    var r := RaftCluster.StartElection(c, i).0;
    VotersAreReceptive(c, i);
    ElectionWonIff(c, i);
    WinnerState(c, i);
    WinnerInLog(c[i], i);
    Within(GrantingPeers(c, i), ReceptivePeers(r, i));
    if c[i].commitIndex < |c[i].log| {
      ClientCommitsIff(r, i, message);
    } else {
      PastTheEnd(r, i, message);
    }
  }

  // ---- a live majority elects ----

  /** Server j belongs to a live majority m, reaches its members, and is at least as up to date as each of them. */
  ghost predicate CanCampaign(c: Cluster, j: int, m: set<int>) {
    j in m && Quorum(c, m) && c[j].active && forall v | v in m && v != j :: CanReach(c, j, v) && AtLeast(c, j, v)
  }

  predicate AtLeast(c: Cluster, j: int, v: int)
    requires j in c && v in c
  {
    UpToDate(|c[j].log| - 1, LastTerm(c[j].log), c[v].log)
  }

  /** Of any servers, one is at least as up to date as the others. */
  lemma {:induction false} MostUpToDate(c: Cluster, m: set<int>) returns (j: int)
    requires m <= c.Keys && m != {}
    ensures j in m && forall v | v in m :: AtLeast(c, j, v)
    decreases m
  {
    assert (forall v :: v !in m) ==> m == {};
    var first :| first in m;
    j := first;
    if m != {first} {
      assert (forall v :: v !in m - {first}) ==> m - {first} == {};
      var rest := MostUpToDate(c, m - {first});
      if AtLeast(c, rest, first) {
        j := rest;
      } else {
        forall v | v in m ensures AtLeast(c, j, v) {
          assert v != first ==> AtLeast(c, rest, v);
        }
      }
    }
  }

  lemma OldTermsGrant(c: Cluster, j: int, m: set<int>)
    requires Mesh(c) && CanCampaign(c, j, m) && forall v | v in m :: c[v].term <= c[j].term
    ensures RaftCluster.StartElection(c, j).1
  {
    hide CanReach, UpToDate;
    assert MeshAt(c, j);
    MeshSize(c, j);
    forall v | v in m - {j} ensures v in GrantingPeers(c, j) {
      assert CanReach(c, j, v) && AtLeast(c, j, v);
    }
    Within(m, GrantingPeers(c, j) + {j});
    ElectionWonIff(c, j);
  }

  /** An election lost leaves the campaign possible, one term later. */
  lemma LostLeaves(c: Cluster, j: int, m: set<int>, top: nat)
    requires Mesh(c) && CanCampaign(c, j, m) && !RaftCluster.StartElection(c, j).1
    requires c[j].term < top && forall v | v in m :: c[v].term <= top
    ensures var d := RaftCluster.StartElection(c, j).0;
            CanCampaign(d, j, m) && d[j].term == c[j].term + 1 && forall v | v in m :: d[v].term <= top
  {
    hide RaftCluster.StartElection, Mesh, CanReach, AtLeast, Asked;
    var d := RaftCluster.StartElection(c, j).0;
    LostState(c, j);
    assert |d| == |d.Keys| == |c.Keys| == |c|;
    forall v | v in m && v != j ensures d[v].term <= top && CanReach(d, j, v) && AtLeast(d, j, v) {
      InPeers(c, j, v);
      LostServer(c, d, j, v, top);
    }
  }

  lemma InPeers(c: Cluster, j: int, v: int)
    requires Mesh(c) && j in c && v in c && v != j
    ensures v in c[j].peers
  {
    assert MeshAt(c, j);
  }

  lemma LostState(c: Cluster, j: int)
    requires Mesh(c) && j in c && c[j].active && !RaftCluster.StartElection(c, j).1
    ensures var d := RaftCluster.StartElection(c, j).0;
            && d[j] == Candidacy(c[j], j).(role := Follower)
            && forall v | v in c[j].peers :: v in c && v in d && d[v] == Asked(c, j, v)
  {
    hide CollectVotes, Asked;
    assert MeshAt(c, j);
    VotesLeave(c, j, c[j].peers);
  }

  lemma LostServer(c: Cluster, d: Cluster, j: int, v: int, top: nat)
    requires j in c && v in c && j in d && v in d && CanReach(c, j, v) && AtLeast(c, j, v)
    requires d[j] == Candidacy(c[j], j).(role := Follower) && d[v] == Asked(c, j, v)
    requires c[v].term <= top && c[j].term < top
    ensures d[v].term <= top && CanReach(d, j, v) && AtLeast(d, j, v)
  {
    hide HandleVote, UpToDate;
    var log := c[j].log;
    VoteKeepsReach(c[v], j, c[j].term + 1, |log| - 1, LastTerm(log));
    VoteKeepsLog(c[v], j, c[j].term + 1, |log| - 1, LastTerm(log), top);
  }

  lemma VoteKeepsLog(s: Server, i: int, t: nat, lastIndex: int, lastTerm: nat, top: nat)
    requires s.term <= top && t <= top
    ensures var r := HandleVote(s, i, t, lastIndex, lastTerm).0; r.log == s.log && r.term <= top
  {
  }

  /** j calls start_election n times. */
  function Standing(j: int, n: nat): (acts: seq<Action>)
    ensures |acts| == n && forall k | 0 <= k < n :: acts[k] == Elect(j)
  {
    seq(n, k => Elect(j))
  }

  /** j wins after having stood k times. */
  predicate Wins(c: Cluster, j: int, k: nat)
    requires Mesh(c) && j in c
  {
    RaftCluster.StartElection(Exec(c, Standing(j, k)), j).1
  }

  lemma WinsLater(c: Cluster, j: int, k: nat)
    requires Mesh(c) && j in c
    ensures Mesh(Next(c, Elect(j))) && j in Next(c, Elect(j))
    ensures Exec(c, Standing(j, k + 1)) == Exec(Next(c, Elect(j)), Standing(j, k))
  {
    hide Exec, RaftCluster.StartElection, Mesh;
    MeshStays(c, Next(c, Elect(j)));
    ExecOne(c, Elect(j));
    assert Standing(j, k + 1) == [Elect(j)] + Standing(j, k);
    ExecJoin(c, [Elect(j)], Standing(j, k));
  }

  lemma StoodNever(c: Cluster, j: int)
    requires Mesh(c) && j in c
    ensures Exec(c, Standing(j, 0)) == c
  {
    hide Exec;
    ExecNone(c);
    assert Standing(j, 0) == [];
  }

  lemma LostSoFar(c: Cluster, j: int, n: nat)
    requires Mesh(c) && j in c && !RaftCluster.StartElection(c, j).1
    requires Mesh(Next(c, Elect(j))) && j in Next(c, Elect(j))
    requires forall k | 0 <= k < n :: !Wins(Next(c, Elect(j)), j, k)
    ensures forall k | 0 <= k < n + 1 :: !Wins(c, j, k)
  {
    hide Exec, RaftCluster.StartElection, Next, Mesh, Standing;
    forall k | 0 <= k < n + 1 ensures !Wins(c, j, k) {
      if k == 0 {
        StoodNever(c, j);
      } else {
        WinsLater(c, j, k - 1);
        assert !Wins(Next(c, Elect(j)), j, k - 1);
      }
    }
  }

  /** Availability, from any state at all: if a majority is live and j, the most up to date of it, reaches the others,
      then after at most as many lost elections as j's term lies behind the terms of that majority j wins one, and the
      next client write to j is acknowledged. */
  lemma {:induction false} MajorityServes(c: Cluster, j: int, m: set<int>, top: nat, message: string) returns (n: nat)
    requires Mesh(c) && CanCampaign(c, j, m) && forall v | v in m :: c[v].term <= top
    ensures n <= top - c[j].term
    ensures forall k | 0 <= k < n :: !Wins(c, j, k)
    ensures var d := Exec(c, Standing(j, n));
            var r := RaftCluster.StartElection(d, j);
            j in d && r.1 && Mesh(r.0) && ClientMessage(r.0, j, message).1
    decreases top - c[j].term
  {
    hide Exec, Next, RaftCluster.StartElection, Mesh, ClientMessage, AtLeast, CanReach, Standing, Wins;
    if RaftCluster.StartElection(c, j).1 {
      n := 0;
      StoodNever(c, j);
      WinnerCanWrite(c, j, message);
    } else {
      if c[j].term >= top {
        OldTermsGrant(c, j, m);
        assert false;
      }
      LostLeaves(c, j, m, top);
      NextElects(c, j);
      var d := Next(c, Elect(j));
      WinsLater(c, j, 0);
      n := MajorityServes(d, j, m, top, message);
      LostSoFar(c, j, n);
      WinsLater(c, j, n);
      n := n + 1;
    }
  }

  // ---- in a careful run ----

  /** Elections, client writes and other calls that are neither recover() nor a sync keep a run careful. */
  lemma CarefulGoesOn(c0: Cluster, acts: seq<Action>, more: seq<Action>)
    requires Careful(c0, acts) && forall k | 0 <= k < |acts| :: SyncBelievable(c0, acts, k)
    requires forall k | 0 <= k < |more| :: !more[k].Recover? && !more[k].Sync?
    ensures Admissible(c0, acts + more)
  {
    hide Exec, SyncSafe, Fresh, StillRemembered;
    var all := acts + more;
    forall k | 0 <= k < |all| ensures RecoverCareful(c0, all, k) && SyncBelievable(c0, all, k) {
      if k < |acts| {
        assert all[..k] == acts[..k];
        assert RecoverCareful(c0, acts, k) && SyncBelievable(c0, acts, k);
        SameVotes(c0, acts, all, k);
      }
    }
    CarefulIsAdmissible(c0, all);
  }

  lemma SameVotes(c0: Cluster, acts: seq<Action>, all: seq<Action>, k: nat)
    requires Mesh(c0) && k < |acts| <= |all| && all[..|acts|] == acts && RecoverCareful(c0, acts, k)
    ensures RecoverCareful(c0, all, k)
  {
    hide Exec, StillRemembered, Leads;
    assert forall n | 0 <= n <= k :: all[..n] == acts[..n];
    assert forall n | 0 <= n <= k :: State(c0, all, n) == State(c0, acts, n);
    if all[k].Recover? && all[k].i in c0 && VotedForLeader(c0, all, k, all[k].i) {
      assert VotedForLeader(c0, acts, k, all[k].i);
    }
  }

  /** After any careful run, a live majority whose servers reach one another can serve clients: its most up-to-date
      member stands until it wins, and the write that follows is acknowledged in an admissible run, hence durable. */
  lemma AvailableAgain(c0: Cluster, acts: seq<Action>, m: set<int>, top: nat, message: string)
    returns (j: int, n: nat)
    requires Careful(c0, acts) && forall k | 0 <= k < |acts| :: SyncBelievable(c0, acts, k)
    requires LiveMajority(Exec(c0, acts), m) && forall v | v in m :: Exec(c0, acts)[v].term <= top
    ensures j in m && n <= top - Exec(c0, acts)[j].term
    ensures var stood := acts + (Standing(j, n) + [Elect(j)]);
            && Admissible(c0, stood + [Client(j, message)])
            && ClientMessage(Exec(c0, stood), j, message).1
  {
    hide Exec, Next, LiveMajority, ClientMessage, RaftCluster.StartElection, Careful, Admissible, SyncBelievable;
    assert Mesh(c0) by { CarefulMesh(c0, acts); }
    var c := Exec(c0, acts);
    j := Campaigner(c, m);
    n := MajorityServes(c, j, m, top, message);
    var stand := Standing(j, n);
    var stood := acts + (stand + [Elect(j)]);
    var d := Exec(c, stand);
    ExecJoin(c0, acts, stand + [Elect(j)]);
    ExecJoin(c, stand, [Elect(j)]);
    ExecOne(d, Elect(j));
    NextElects(d, j);
    var more := (stand + [Elect(j)]) + [Client(j, message)];
    assert stood + [Client(j, message)] == acts + more;
    CarefulGoesOn(c0, acts, more);
  }

  lemma CarefulMesh(c0: Cluster, acts: seq<Action>)
    requires Careful(c0, acts)
    ensures Mesh(c0)
  {
  }

  lemma NextElects(c: Cluster, i: int)
    requires Mesh(c) && i in c
    ensures Next(c, Elect(i)) == RaftCluster.StartElection(c, i).0
  {
  }

  /** A majority of live servers that all reach one another. */
  ghost predicate LiveMajority(c: Cluster, m: set<int>) {
    Quorum(c, m) && (forall v | v in m :: c[v].active) && forall v, w | v in m && w in m && v != w :: CanReach(c, v, w)
  }

  lemma Campaigner(c: Cluster, m: set<int>) returns (j: int)
    requires LiveMajority(c, m)
    ensures CanCampaign(c, j, m)
  {
    hide CanReach, AtLeast;
    j := MostUpToDate(c, m);
  }
}
