/** Where two helpers do not keep what their documentation says, and exactly when they do. */
module RaftLimits {
  import opened RaftServer
  import opened RaftCluster
  import opened RaftInvariant
  import opened RaftCalls
  import opened RaftSafety
  import opened RaftReplication

  // ---- recover() ----

  /** Three servers, 1, 2 and 3. */
  function Three(a: Server, b: Server, c: Server): Cluster {
    map[1 := a, 2 := b, 3 := c]
  }

  lemma ThreeMesh(a: Server, b: Server, c: Server)
    requires a.peers == [2, 3] && b.peers == [1, 3] && c.peers == [1, 2]
    ensures Mesh(Three(a, b, c))
  {
    var m := Three(a, b, c);
    assert MeshAt(m, 1) && MeshAt(m, 2) && MeshAt(m, 3);
  }

  const FRESH3 := Three(FreshServer([2, 3]), FreshServer([1, 3]), FreshServer([1, 2]))

  lemma AskTwo(c: Cluster, i: int, p: int, q: int)
    requires i in c && p in c && q in c
    ensures CollectVotes(c, i, [p, q]) ==
            var r := AskStep(c, 1, i, p); AskStep(r.0, r.1, i, q)
  {
    assert [p, q][..1] == [p] && [p][..0] == [];
    assert CollectVotes(c, i, []) == (c, 1);
    assert CollectVotes(c, i, [p]) == AskStep(c, 1, i, p);
  }

  lemma BeatTwo(c: Cluster, i: int, p: int, q: int)
    requires i in c && p in c && q in c
    ensures Heartbeats(c, i, [p, q]) == BeatStep(BeatStep(c, i, p), i, q)
  {
    assert [p, q][..1] == [p] && [p][..0] == [];
    assert Heartbeats(c, i, []) == c;
    assert Heartbeats(c, i, [p]) == BeatStep(c, i, p);
  }

  /** A server with an empty log and a lower term votes for an empty-handed candidate that can reach it. */
  lemma AskEmpty(c: Cluster, votes: nat, i: int, p: int)
    requires i in c && p in c && CanReach(c, i, p)
    requires c[p].term < c[i].term && c[p].log == [] == c[i].log
    ensures AskStep(c, votes, i, p) ==
            (c[p := c[p].(term := c[i].term, role := Follower, votedFor := Some(i), leaderId := -1)], votes + 1)
  {
  }

  /** A server with an empty log takes an empty heartbeat. */
  lemma BeatEmpty(c: Cluster, i: int, p: int)
    requires i in c && p in c && CanReach(c, i, p) && c[p].term == c[i].term
    requires NextOf(c[i], p) == 0 && c[i].commitIndex == -1 && c[p].log == [] && c[p].commitIndex == -1
    ensures BeatStep(c, i, p) == c[p := c[p].(role := Follower, leaderId := i)]
  {
  }

  lemma Unreached(c: Cluster, votes: nat, i: int, p: int)
    requires i in c && p in c && !CanReach(c, i, p)
    ensures AskStep(c, votes, i, p) == (c, votes) && BeatStep(c, i, p) == c
  {
  }

  /** Server i, whose log is empty, leads its next term by the vote of p alone. */
  function LedByVote(c: Cluster, i: int, p: int): Cluster
    requires i in c && p in c
  {
    c[i := Crowned(Candidacy(c[i], i), i)]
     [p := c[p].(term := c[i].term + 1, role := Follower, votedFor := Some(i), leaderId := i)]
  }

  /** An election among three servers: two questions, then the count. */
  lemma ElectTwo(c: Cluster, i: int, p: int, q: int)
    requires Mesh(c) && i in c && p in c && q in c && c[i].active && c[i].peers == [p, q]
    ensures var c0 := c[i := Candidacy(c[i], i)];
            var r := AskStep(c0, 1, i, p);
            var u := AskStep(r.0, r.1, i, q);
            var crowned := u.0[i := Crowned(u.0[i], i)];
            StartElection(c, i) ==
              if u.1 >= 2 then (BeatStep(BeatStep(crowned, i, p), i, q), true)
              else (u.0[i := u.0[i].(role := Follower)], false)
  {
    var c0 := c[i := Candidacy(c[i], i)];
    AskTwo(c0, i, p, q);
    var r := AskStep(c0, 1, i, p);
    var u := AskStep(r.0, r.1, i, q);
    BeatTwo(u.0[i := Crowned(u.0[i], i)], i, p, q);
  }

  /** Of the two others p can be reached and has an empty log, q cannot be reached. */
  predicate OneVoter(c: Cluster, i: int, p: int, q: int) {
    && i in c && p in c && q in c && i != p && i != q && p != q
    && c[i].active && c[i].log == [] && c[i].commitIndex == -1
    && CanReach(c, i, p) && !CanReach(c, i, q)
    && c[p].term <= c[i].term && c[p].log == [] && c[p].commitIndex == -1
  }

  lemma OneVoteWins(c: Cluster, i: int, p: int, q: int)
    requires Mesh(c) && OneVoter(c, i, p, q) && (c[i].peers == [p, q] || c[i].peers == [q, p])
    ensures StartElection(c, i).0 == LedByVote(c, i, p)
  {
    hide AskStep, BeatStep, StartElection, Mesh, Crowned;
    var c0 := c[i := Candidacy(c[i], i)];
    var asked := c[p].(term := c[i].term + 1, role := Follower, votedFor := Some(i), leaderId := -1);
    var c1 := c0[p := asked];
    AskEmpty(c0, 1, i, p);
    Unreached(c0, 1, i, q);
    Unreached(c1, 2, i, q);
    CrownedFresh(c0[i], i, p);
    var c2 := c1[i := Crowned(c0[i], i)];
    BeatEmpty(c2, i, p);
    Unreached(c2, 0, i, q);
    Unreached(c2[p := c2[p].(role := Follower, leaderId := i)], 0, i, q);
    if c[i].peers == [p, q] {
      ElectTwo(c, i, p, q);
    } else {
      ElectTwo(c, i, q, p);
    }
  }

  lemma CrownedFresh(s: Server, i: int, p: int)
    requires p in s.peers && s.log == []
    ensures var r := Crowned(s, i);
            && NextOf(r, p) == 0 && r.term == s.term && r.commitIndex == s.commitIndex
            && r.partitionedFrom == s.partitionedFrom
  {
  }

  /** Server 1 wins term 1 with the vote of server 2; server 3 is cut off. */
  function Leader1(): Server {
    Crowned(Candidacy(FreshServer([2, 3]), 1), 1)
  }

  function Voter2(): Server {
    FreshServer([1, 3]).(term := 1, votedFor := Some(1), leaderId := 1)
  }

  function Cut3(): Server {
    FreshServer([1, 2]).(partitionedFrom := {1, 2})
  }

  lemma FirstElection()
    ensures Mesh(Three(FreshServer([2, 3]), FreshServer([1, 3]), Cut3()))
    ensures StartElection(Three(FreshServer([2, 3]), FreshServer([1, 3]), Cut3()), 1).0 ==
      Three(Leader1(), Voter2(), Cut3())
  {
    hide StartElection, Mesh, Crowned;
    ThreeMesh(FreshServer([2, 3]), FreshServer([1, 3]), Cut3());
    OneVoteWins(Three(FreshServer([2, 3]), FreshServer([1, 3]), Cut3()), 1, 2, 3);
  }

  lemma ExchangeKeeps(c: Cluster, votes: nat, i: int, p: int)
    requires i in c && p in c && i != p
    ensures AskStep(c, votes, i, p).0[i] == c[i] == BeatStep(c, i, p)[i]
  {
  }

  /** One refusal and one vote elect one of three. */
  lemma OneGrants(c: Cluster, i: int, p: int, q: int)
    requires Mesh(c) && i in c && p in c && q in c && i != p && i != q && c[i].active && c[i].peers == [p, q]
    requires var c0 := c[i := Candidacy(c[i], i)]; AskStep(c0, 1, i, p) == (c0, 1) && AskStep(c0, 1, i, q).1 == 2
    ensures Leads(StartElection(c, i).0, i, c[i].term + 1)
  {
    hide AskStep, BeatStep, StartElection, Mesh;
    var c0 := c[i := Candidacy(c[i], i)];
    ElectTwo(c, i, p, q);
    ExchangeKeeps(c0, 1, i, q);
    var c1 := AskStep(c0, 1, i, q).0;
    var c2 := c1[i := Crowned(c1[i], i)];
    ExchangeKeeps(c2, 0, i, p);
    ExchangeKeeps(BeatStep(c2, i, p), 0, i, q);
  }

  lemma SecondVotes()
    ensures var b := Recovered(Voter2());
            HandleVote(b, 3, 1, -1, 0) == (b.(votedFor := Some(3)), true) &&
            HandleVote(Leader1(), 3, 1, -1, 0) == (Leader1(), false)
  {
  }

  lemma SecondElection()
    ensures Mesh(Three(Leader1(), Recovered(Voter2()), FreshServer([1, 2])))
    ensures Leads(StartElection(Three(Leader1(), Recovered(Voter2()), FreshServer([1, 2])), 3).0, 3, 1)
  {
    hide StartElection, Mesh, HandleVote;
    SecondVotes();
    var c := Three(Leader1(), Recovered(Voter2()), FreshServer([1, 2]));
    ThreeMesh(Leader1(), Recovered(Voter2()), FreshServer([1, 2]));
    var c0 := c[3 := Candidacy(c[3], 3)];
    assert c0[1 := Leader1()] == c0;
    OneGrants(c, 3, 1, 2);
  }

  /** The states of the run, one a step. */
  function RunState(k: nat): Cluster {
    if k == 0 then FRESH3
    else if k == 1 then Three(FreshServer([2, 3]), FreshServer([1, 3]), Cut3())
    else if k == 2 then Three(Leader1(), Voter2(), Cut3())
    else if k == 3 then Three(Leader1(), Recovered(Voter2()), Cut3())
    else Three(Leader1(), Recovered(Voter2()), FreshServer([1, 2]))
  }

  const TWO_LEADERS := [Partition(3, {1, 2}), Elect(1), Recover(2), Heal(3), Elect(3)]

  lemma RunStep(k: nat)
    requires k < 4
    ensures Mesh(RunState(k)) && Next(RunState(k), TWO_LEADERS[k]) == RunState(k + 1)
  {
    hide StartElection, ClientMessage, SyncFromLeader, ReplicateLog, Commit, Mesh;
    ThreeMesh(RunState(k)[1], RunState(k)[2], RunState(k)[3]);
    if k == 1 {
      FirstElection();
    }
  }

  lemma {:induction false} RunStates(k: nat)
    requires k <= 4
    ensures Mesh(FRESH3) && State(FRESH3, TWO_LEADERS, k) == RunState(k)
  {
    hide Next, RunState, Three;
    RunZero();
    if k > 0 {
      RunStates(k - 1);
      RunStep(k - 1);
      StateNext(FRESH3, TWO_LEADERS, k - 1);
    }
  }

  lemma RunZero()
    ensures Mesh(FRESH3) && Fresh(FRESH3) && State(FRESH3, TWO_LEADERS, 0) == RunState(0)
  {
    ThreeMesh(FreshServer([2, 3]), FreshServer([1, 3]), FreshServer([1, 2]));
  }

  /** The vote that recover() forgets can be cast again: two servers lead term 1. */
  lemma RecoverAllowsTwoLeaders()
    ensures Mesh(FRESH3) && Fresh(FRESH3)
    ensures Leads(State(FRESH3, TWO_LEADERS, 2), 1, 1) && Leads(State(FRESH3, TWO_LEADERS, 5), 3, 1)
  {
    hide StartElection, State, Mesh;
    RunZero();
    RunStates(2);
    RunStates(4);
    StateNext(FRESH3, TWO_LEADERS, 4);
    SecondElection();
  }

  // ---- get_leader ----

  const STALE_HINT := [Partition(3, {1, 2}), Elect(1), Partition(2, {1, 3}), Elect(2)]

  /** A server that stands alone and loses keeps naming the leader of the term before. */
  lemma HintGoesStale()
    ensures Mesh(FRESH3) && Fresh(FRESH3)
    ensures var c := State(FRESH3, STALE_HINT, 4);
            c[2].term == 2 && c[2].leaderId == 1 && Leads(c, 1, 1) && forall i :: !Leads(c, i, 2)
  {
    hide StartElection, State, Mesh, Next, Three;
    RunZero();
    RunStates(2);
    SameStart(TWO_LEADERS, STALE_HINT, 2);
    StateNext(FRESH3, STALE_HINT, 2);
    StateNext(FRESH3, STALE_HINT, 3);
    SecondStands(RunState(2));
  }

  lemma SameStart(a: seq<Action>, b: seq<Action>, k: nat)
    requires Mesh(FRESH3) && k <= |a| && k <= |b| && a[..k] == b[..k]
    ensures State(FRESH3, a, k) == State(FRESH3, b, k)
  {
  }

  lemma SecondStands(c: Cluster)
    requires c == RunState(2) && Mesh(c)
    ensures Mesh(Next(c, Partition(2, {1, 3})))
    ensures var d := Next(Next(c, Partition(2, {1, 3})), Elect(2));
            2 in d && 1 in d && d[2].term == 2 && d[2].leaderId == 1 && Leads(d, 1, 1) && forall i :: !Leads(d, i, 2)
  {
    hide StartElection, Mesh, Next;
    NextPartition(c, 2, {1, 3});
    var c1 := c[2 := c[2].(partitionedFrom := {1, 3})];
    MeshStays(c, c1);
    NextElect(c1, 2);
    ElectAlone(c1, 2, 1, 3);
  }

  // ---- sync_from_leader ----

  /** After a sync in an admissible run, what the two servers have handed over still agrees exactly
      when the sync was safe to believe. */
  lemma SyncKeepsAgreementIff(c0: Cluster, acts: seq<Action>, k: nat, i: int, l: int)
    requires Admissible(c0, acts) && k <= |acts| && i in c0 && l in c0
    ensures var c := State(c0, acts, k); var c' := SyncFromLeader(c, i, l).0;
            (c'[i].applied <= c'[l].applied || c'[l].applied <= c'[i].applied) <==> SyncSafe(c, i, l)
  {
    hide Inv, Advances, Next, State, SendTo;
    var hs := RunOk(c0, acts, k);
    var c := State(c0, acts, k);
    if SyncSafe(c, i, l) {
      var h' := SyncOk(c, hs[k], i, l);
      AppliedAgree(SyncFromLeader(c, i, l).0, h', i, l);
    } else {
      Parts(c, hs[k], i);
      Parts(c, hs[k], l);
      assert i != l;
      SendStale(c, l, i);
      SyncDiverges(c, i, l);
    }
  }

  lemma AppliedAgree(c: Cluster, h: History, i: int, j: int)
    requires Inv(c, h) && i in c && j in c
    ensures c[i].applied <= c[j].applied || c[j].applied <= c[i].applied
  {
    hide Inv;
    Parts(c, h, i);
    Parts(c, h, j);
    if c[i].commitIndex >= 0 && c[j].commitIndex >= 0 {
      CertifiedComparable(c, h, c[i].applied, c[i].term, c[j].applied, c[j].term);
    }
  }

  lemma SyncDiverges(c: Cluster, i: int, l: int)
    requires i in c && l in c && i != l && !SyncSafe(c, i, l)
    requires c[i].lastApplied == c[i].commitIndex < |c[i].log| && c[i].applied == c[i].log[..c[i].commitIndex + 1]
    requires c[l].commitIndex < |c[l].log| && c[l].applied == c[l].log[..c[l].commitIndex + 1]
    requires SendTo(c, l, i) == c[l := c[l].(nextIndex := SendTo(c, l, i)[l].nextIndex)]
    ensures var c' := SyncFromLeader(c, i, l).0;
            !(c'[i].applied <= c'[l].applied) && !(c'[l].applied <= c'[i].applied)
  {
    hide SendTo, LearnCommit;
    var s, u := c[i], c[l];
    LearnApplies(s, u.commitIndex);
    var m := Min(u.commitIndex + 1, |s.log|);
    var c' := SyncFromLeader(c, i, l).0;
    assert c'[i].applied == s.log[..m] && c'[l].applied == u.applied;
    assert m <= |u.log| ==> u.log[..u.commitIndex + 1][..m] == u.log[..m];
  }

  /** An election in which neither of the two others gives its vote, or changes. */
  lemma NoVoteLoses(c: Cluster, i: int, p: int, q: int)
    requires Mesh(c) && i in c && p in c && q in c && c[i].active && c[i].peers == [p, q]
    requires var c0 := c[i := Candidacy(c[i], i)]; AskStep(c0, 1, i, p) == AskStep(c0, 1, i, q) == (c0, 1)
    ensures StartElection(c, i).0 == c[i := Candidacy(c[i], i).(role := Follower)]
  {
    hide AskStep, BeatStep, Crowned, Mesh;
    ElectTwo(c, i, p, q);
  }

  lemma AskRefused(c: Cluster, votes: nat, i: int, p: int)
    requires i in c && p in c && HandleVote(c[p], i, c[i].term, |c[i].log| - 1, LastTerm(c[i].log)) == (c[p], false)
    ensures AskStep(c, votes, i, p) == (c, votes)
  {
    assert c[p := c[p]] == c;
  }

  /** An election nobody answers. */
  lemma ElectAlone(c: Cluster, i: int, p: int, q: int)
    requires Mesh(c) && i in c && p in c && q in c && c[i].active && c[i].peers == [p, q]
    requires !CanReach(c, i, p) && !CanReach(c, i, q) && p != i && q != i
    ensures StartElection(c, i).0 == c[i := Candidacy(c[i], i).(role := Follower)]
  {
    hide StartElection, AskStep, BeatStep, Mesh;
    var c0 := c[i := Candidacy(c[i], i)];
    Unreached(c0, 1, i, p);
    Unreached(c0, 1, i, q);
    NoVoteLoses(c, i, p, q);
  }

  lemma ReplicateTwo(c: Cluster, i: int, p: int, q: int)
    requires Mesh(c) && i in c && p in c && q in c && i != p && i != q
    requires c[i].role == Leader && c[i].peers == [p, q]
    ensures var c1 := if CanReach(c, i, p) then SendTo(c, i, p) else c;
            ReplicateLog(c, i) == if CanReach(c1, i, q) then SendTo(c1, i, q) else c1
  {
    assert [p, q][..1] == [p] && [p][..0] == [];
    assert Replicate(c, i, []) == c;
    assert Replicate(c, i, [p]) == if CanReach(c, i, p) then SendTo(c, i, p) else c;
  }

  // Server 3 led term 1 and wrote "x" where nobody could hear it; server 1 leads term 2 and has
  // committed "a"; server 3 has since stood twice in vain and is in term 3.

  function Side1(): Server { FreshServer([2, 3]).(partitionedFrom := {3}) }
  function Old3(): Server { Crowned(Candidacy(FreshServer([1, 2]), 3), 3) }
  function Old3x(): Server { Old3().(partitionedFrom := {1, 2}, log := [LogEntry(1, "x")]) }
  function For3(): Server { FreshServer([1, 3]).(term := 1, votedFor := Some(3), leaderId := 3) }
  function For1(): Server { FreshServer([1, 3]).(term := 2, votedFor := Some(1), leaderId := 1) }
  function Lost1(): Server { Candidacy(Side1(), 1).(role := Follower) }
  function New1(): Server { Crowned(Candidacy(Lost1(), 1), 1) }
  function New1a(): Server {
    Acked(New1(), 2, 1).(log := [LogEntry(2, "a")], applied := [LogEntry(2, "a")], commitIndex := 0, lastApplied := 0)
  }
  function For1a(): Server { For1().(log := [LogEntry(2, "a")]) }
  function Lone3(s: Server): Server { Candidacy(s, 3).(role := Follower) }

  function SyncState(k: nat): Cluster {
    if k == 0 then FRESH3
    else if k == 1 then Three(Side1(), FreshServer([1, 3]), FreshServer([1, 2]))
    else if k == 2 then Three(Side1(), For3(), Old3())
    else if k == 3 then Three(Side1(), For3(), Old3().(partitionedFrom := {1, 2}))
    else if k == 4 then Three(Side1(), For3(), Old3x())
    else if k == 5 then Three(Lost1(), For3(), Old3x())
    else if k == 6 then Three(New1(), For1(), Old3x())
    else if k == 7 then Three(New1a(), For1a(), Old3x())
    else if k == 8 then Three(New1a(), For1a(), Lone3(Old3x()))
    else Three(New1a(), For1a(), Lone3(Lone3(Old3x())))
  }

  const STALE_SYNC := [Partition(1, {3}), Elect(3), Partition(3, {1, 2}), Client(3, "x"), Elect(1), Elect(1),
                       Client(1, "a"), Elect(3), Elect(3), Sync(3, 1)]

  lemma SyncMesh(k: nat)
    ensures Mesh(SyncState(k))
  {
    hide SetAll, Mesh;
    var c := SyncState(k);
    ThreeMesh(c[1], c[2], c[3]);
  }

  lemma ThirdElected(c: Cluster)
    requires c == Three(Side1(), FreshServer([1, 3]), FreshServer([1, 2])) && Mesh(c)
    ensures StartElection(c, 3).0 == Three(Side1(), For3(), Old3())
  {
    hide StartElection, Mesh, Crowned;
    OneVoteWins(c, 3, 2, 1);
  }

  lemma ThirdWins()
    ensures Mesh(SyncState(1)) && StartElection(SyncState(1), 3).0 == SyncState(2)
  {
    hide StartElection, Mesh, Side1, For3, Old3, Three, FreshServer;
    SyncMesh(1);
    ThirdElected(SyncState(1));
  }

  lemma ThirdWrites()
    ensures Mesh(SyncState(3)) && ClientMessage(SyncState(3), 3, "x").0 == SyncState(4)
  {
    hide SendTo, Commit, Mesh;
    var c := SyncState(3);
    SyncMesh(3);
    SyncMesh(4);
    assert c[3].log + [LogEntry(1, "x")] == [LogEntry(1, "x")];
    assert c[3 := Old3x()] == SyncState(4);
    ReplicateTwo(SyncState(4), 3, 1, 2);
    assert ReplicateLog(SyncState(4), 3) == SyncState(4);
    ThirdHolds();
  }

  lemma ThirdHolds()
    ensures Commit(Old3x()) == Old3x()
  {
    assert [1, 2][..1] == [1] && [1][..0] == [];
    assert AckCount(Old3x(), [], 0) == 1 && AckCount(Old3x(), [1], 0) == 1;
  }

  lemma FirstRefused(c: Cluster)
    requires c == Three(Side1(), For3(), Old3x()) && Mesh(c)
    ensures StartElection(c, 1).0 == Three(Lost1(), For3(), Old3x())
  {
    hide AskStep, BeatStep, HandleVote, StartElection, Old3x, For3, Mesh;
    SecondRefuses();
    var c0 := c[1 := Candidacy(c[1], 1)];
    AskRefused(c0, 1, 1, 2);
    Unreached(c0, 1, 1, 3);
    NoVoteLoses(c, 1, 2, 3);
  }

  lemma FirstLoses()
    ensures Mesh(SyncState(4)) && StartElection(SyncState(4), 1).0 == SyncState(5)
  {
    hide StartElection, Mesh, Side1, Lost1, For3, Old3x, Three;
    SyncMesh(4);
    FirstRefused(SyncState(4));
  }

  lemma SecondRefuses()
    ensures HandleVote(For3(), 1, 1, -1, 0) == (For3(), false)
  {
  }

  lemma FirstElected(c: Cluster)
    requires c == Three(Lost1(), For3(), Old3x()) && Mesh(c)
    ensures StartElection(c, 1).0 == Three(New1(), For1(), Old3x())
  {
    hide StartElection, Mesh, Crowned;
    OneVoteWins(c, 1, 2, 3);
  }

  lemma FirstWins()
    ensures Mesh(SyncState(5)) && StartElection(SyncState(5), 1).0 == SyncState(6)
  {
    hide StartElection, Mesh, Lost1, For3, Old3x, New1, For1, Three;
    SyncMesh(5);
    FirstElected(SyncState(5));
  }

  /** What a leader's write does, step by step. */
  lemma WriteUnfold(c: Cluster, i: int, m: string)
    requires Mesh(c) && i in c && c[i].active && c[i].role == Leader
    ensures var c0 := c[i := c[i].(log := c[i].log + [LogEntry(c[i].term, m)])];
            Mesh(c0) && var c1 := ReplicateLog(c0, i); ClientMessage(c, i, m).0 == c1[i := Commit(c1[i])]
  {
    hide ReplicateLog, Commit, Mesh;
    MeshStays(c, c[i := c[i].(log := c[i].log + [LogEntry(c[i].term, m)])]);
  }

  lemma FirstWritesOn(c: Cluster)
    requires c == Three(New1(), For1(), Old3x()) && Mesh(c)
    ensures ClientMessage(c, 1, "a").0 == Three(New1a(), For1a(), Old3x())
  {
    hide Three, Commit, ReplicateLog, ClientMessage, Acked, New1, New1a, For1a, For1, Old3x, Mesh;
    FirstInOffice();
    SetFirst(New1(), For1(), Old3x(), New1x());
    WriteUnfold(c, 1, "a");
    FirstReplicates(c[1 := New1x()]);
    SetFirst(Acked(New1x(), 2, 1), For1a(), Old3x(), New1a());
    FirstCommits();
  }

  function New1x(): Server { New1().(log := [LogEntry(2, "a")]) }

  lemma SetFirst(a: Server, b: Server, c: Server, s: Server)
    ensures 1 in Three(a, b, c) && Three(a, b, c)[1] == a && Three(a, b, c)[1 := s] == Three(s, b, c)
  {
  }

  lemma FirstInOffice()
    ensures var s := New1();
            s.active && s.role == Leader && s.term == 2 && s.log + [LogEntry(2, "a")] == [LogEntry(2, "a")]
  {
  }

  lemma FirstWrites()
    ensures Mesh(SyncState(6)) && ClientMessage(SyncState(6), 1, "a").0 == SyncState(7)
  {
    hide ClientMessage, Mesh, New1, For1, Old3x, New1a, For1a, Three;
    SyncMesh(6);
    FirstWritesOn(SyncState(6));
  }

  lemma FirstReplicates(c: Cluster)
    requires Mesh(c) && c == Three(New1x(), For1(), Old3x())
    ensures ReplicateLog(c, 1) == Three(Acked(New1x(), 2, 1), For1a(), Old3x())
  {
    hide SendTo, ReplicateLog, Acked;
    ReplicateTwo(c, 1, 2, 3);
    FirstSends(c);
  }

  lemma FirstCommits()
    ensures Commit(Acked(New1x(), 2, 1)) == New1a()
  {
    var s := Acked(New1x(), 2, 1);
    assert [2, 3][..1] == [2] && [2][..0] == [];
    assert AckCount(s, [], 0) == 1 && AckCount(s, [2], 0) == 2;
    assert s.log[0..1] == s.log;
  }

  lemma SecondStores()
    ensures HandleAppend(For1(), 1, 2, -1, 0, [LogEntry(2, "a")], -1) == (For1a(), true)
  {
    MergePrefix([LogEntry(2, "a")], 0);
    assert [LogEntry(2, "a")][..0] == For1().log && [LogEntry(2, "a")][0..] == [LogEntry(2, "a")];
  }

  lemma FirstSends(c: Cluster)
    requires c == Three(New1x(), For1(), Old3x())
    ensures SendTo(c, 1, 2) == c[1 := Acked(c[1], 2, 1)][2 := For1a()]
  {
    hide HandleAppend, SendTo, Acked;
    SecondStores();
    assert Suffix([LogEntry(2, "a")], 0) == [LogEntry(2, "a")];
    assert NextOf(c[1], 2) == 0 && c[1].term == 2 && c[1].commitIndex == -1;
    assert Append(c, 1, 2, 0) == (For1a(), true);
    SendUnfold(c, 1, 2);
    assert c[2 := For1a()][1 := Acked(c[1], 2, 1)] == c[1 := Acked(c[1], 2, 1)][2 := For1a()];
  }

  lemma NextPartition(c: Cluster, i: int, ids: set<int>)
    requires Mesh(c) && i in c
    ensures Next(c, Partition(i, ids)) == c[i := c[i].(partitionedFrom := ids)]
  {
  }

  lemma NextElect(c: Cluster, i: int)
    requires Mesh(c) && i in c
    ensures Next(c, Elect(i)) == StartElection(c, i).0
  {
  }

  lemma NextClient(c: Cluster, i: int, m: string)
    requires Mesh(c) && i in c
    ensures Next(c, Client(i, m)) == ClientMessage(c, i, m).0
  {
  }

  lemma NextSync(c: Cluster, i: int, l: int)
    requires Mesh(c) && i in c && l in c && i != l
    ensures Next(c, Sync(i, l)) == SyncFromLeader(c, i, l).0
  {
  }

  lemma SyncStep(k: nat)
    requires k < 9
    ensures Mesh(SyncState(k)) && Next(SyncState(k), STALE_SYNC[k]) == SyncState(k + 1)
  {
    hide StartElection, ClientMessage, Next, SyncState, Three, Mesh;
    SyncMesh(k);
    SyncQuiet(k);
    SyncIds(k);
    match k {
      case 1 => ThirdWins(); NextElect(SyncState(1), 3);
      case 3 => ThirdWrites(); NextClient(SyncState(3), 3, "x");
      case 4 => FirstLoses(); NextElect(SyncState(4), 1);
      case 5 => FirstWins(); NextElect(SyncState(5), 1);
      case 6 => FirstWrites(); NextClient(SyncState(6), 1, "a");
      case _ =>
    }
  }

  lemma SyncIds(k: nat)
    ensures 1 in SyncState(k) && 3 in SyncState(k)
  {
    hide Side1, Old3, Old3x, For3, For1, Lost1, New1, New1a, For1a, Lone3;
  }

  /** The steps nobody else takes part in. */
  lemma SyncQuiet(k: nat)
    ensures Mesh(SyncState(k))
    ensures k in {0, 2, 7, 8} ==> Next(SyncState(k), STALE_SYNC[k]) == SyncState(k + 1)
  {
    hide Next, SyncState;
    SyncMesh(k);
    SyncIds(k);
    if k == 0 {
      SyncCut0();
    } else if k == 2 {
      SyncCut2();
    } else if k == 7 || k == 8 {
      SyncStand(k);
      NextElect(SyncState(k), 3);
    }
  }

  lemma SyncCut0()
    ensures Mesh(SyncState(0)) && Next(SyncState(0), Partition(1, {3})) == SyncState(1)
  {
    hide Next, Mesh;
    SyncMesh(0);
    NextPartition(SyncState(0), 1, {3});
  }

  lemma SyncCut2()
    ensures Mesh(SyncState(2)) && Next(SyncState(2), Partition(3, {1, 2})) == SyncState(3)
  {
    hide Next, Old3, For3, Mesh;
    SyncMesh(2);
    NextPartition(SyncState(2), 3, {1, 2});
  }

  lemma ThirdStands(c: Cluster, s: Server)
    requires c == Three(New1a(), For1a(), s) && Mesh(c) && s.active && s.peers == [1, 2] && s.partitionedFrom == {1, 2}
    ensures StartElection(c, 3).0 == Three(New1a(), For1a(), Lone3(s))
  {
    hide StartElection, New1a, For1a, Mesh;
    ElectAlone(c, 3, 1, 2);
  }

  lemma SyncStand(k: nat)
    requires k == 7 || k == 8
    ensures Mesh(SyncState(k)) && StartElection(SyncState(k), 3).0 == SyncState(k + 1)
  {
    hide StartElection, New1a, For1a, Mesh, Three;
    SyncMesh(k);
    ThirdStands(SyncState(k), if k == 7 then Old3x() else Lone3(Old3x()));
  }

  lemma {:induction false} SyncStates(k: nat)
    requires k <= 9
    ensures Mesh(FRESH3) && State(FRESH3, STALE_SYNC, k) == SyncState(k)
  {
    hide Next, SyncState, Three;
    SyncZero();
    if k > 0 {
      SyncStates(k - 1);
      SyncStep(k - 1);
      StateNext(FRESH3, STALE_SYNC, k - 1);
    }
  }

  lemma SyncZero()
    ensures Mesh(FRESH3) && Fresh(FRESH3) && State(FRESH3, STALE_SYNC, 0) == SyncState(0)
  {
    ThreeMesh(FreshServer([2, 3]), FreshServer([1, 3]), FreshServer([1, 2]));
  }

  /** Believing a stale leader's commit index makes two servers hand over different messages. */
  lemma StaleSyncDiverges()
    ensures Mesh(FRESH3) && Fresh(FRESH3)
    ensures var c := State(FRESH3, STALE_SYNC, 10);
            c[3].applied == [LogEntry(1, "x")] && c[1].applied == [LogEntry(2, "a")]
  {
    hide State, SyncFromLeader, Next, SyncState, Three, Fresh;
    SyncZero();
    SyncStates(9);
    StateNext(FRESH3, STALE_SYNC, 9);
    LastSync();
  }

  lemma SyncLate(c: Cluster)
    requires c == Three(New1a(), For1a(), Lone3(Lone3(Old3x())))
    ensures var r := SyncFromLeader(c, 3, 1).0;
            r[3].applied == [LogEntry(1, "x")] && r[1].applied == [LogEntry(2, "a")]
  {
    hide SendTo;
    SendStale(c, 1, 3);
    assert c[3].log[0..1] == [LogEntry(1, "x")];
  }

  lemma LastSync()
    ensures Mesh(SyncState(9))
    ensures var c := Next(SyncState(9), Sync(3, 1));
            c[3].applied == [LogEntry(1, "x")] && c[1].applied == [LogEntry(2, "a")]
  {
    hide SyncFromLeader, Next, Mesh, New1a, For1a, Lone3, Old3x;
    SyncMesh(9);
    assert SyncState(9).Keys == {1, 2, 3};
    NextSync(SyncState(9), 3, 1);
    SyncLate(SyncState(9));
  }
}
