/** Election Safety, section 5.2 of the Raft paper, for every run whose recover() calls leave enough servers that
    remember the vote. The other theorems need no more than what this one gives them. */
module RaftElections {
  import opened RaftServer
  import opened RaftCluster
  import opened RaftInvariant
  import opened RaftCalls
  import opened RaftSafety
  import opened RaftHints
  import opened RaftProgress

  // ---- votes over a call ----

  /** The election of a call, if it holds one: who stands, in which term, and whether it wins. */
  datatype Race = NoRace | Race(candidate: int, term: nat, won: bool)

  predicate WonBy(w: Race, p: int) {
    w.Race? && w.won && w.candidate == p
  }

  ghost function RaceOf(c: Cluster, a: Action): Race
    requires Mesh(c)
  {
    if a.Elect? && a.i in c then Race(a.i, c[a.i].term + 1, StartElection(c, a.i).1) else NoRace
  }

  /** Terms only rise, and within a term a vote once given stays. */
  predicate VoteMoves(s: Server, u: Server) {
    s.term <= u.term && (u.term == s.term ==> s.votedFor == None || u.votedFor == s.votedFor)
  }

  /** A vote is an old one of the same term, or one for whoever stands, in the term it stands for. */
  predicate VoteFor(s: Server, u: Server, w: Race) {
    u.votedFor != None ==>
      (u.votedFor == s.votedFor && u.term == s.term)
      || (w.Race? && u.votedFor == Some(w.candidate) && u.term == w.term)
  }

  /** A leader was one before, in the same term, and takes the same server for the leader. */
  predicate NotCrowned(s: Server, u: Server) {
    u.role == Leader ==> s.role == Leader && u.term == s.term && u.leaderId == s.leaderId
  }

  /** A leader was one before, or has just won and takes itself for the leader. */
  predicate InOffice(s: Server, u: Server, w: Race, p: int) {
    NotCrowned(s, u) || (WonBy(w, p) && u.leaderId == p)
  }

  /** From c to d votes are kept or cast in the race w, and nobody but its winner takes office. */
  ghost predicate VotesStep(c: Cluster, d: Cluster, w: Race) {
    d.Keys == c.Keys && forall p | p in c ::
      VoteMoves(c[p], d[p]) && VoteFor(c[p], d[p], w) && InOffice(c[p], d[p], w, p)
  }

  lemma VotesTrans(c: Cluster, d: Cluster, e: Cluster, w: Race)
    requires VotesStep(c, d, w) && VotesStep(d, e, w)
    ensures VotesStep(c, e, w)
  {
    forall p | p in c
      ensures VoteMoves(c[p], e[p]) && VoteFor(c[p], e[p], w) && InOffice(c[p], e[p], w, p)
    {
      assert VoteMoves(c[p], d[p]) && VoteMoves(d[p], e[p]) && VoteFor(c[p], d[p], w) && VoteFor(d[p], e[p], w);
      assert InOffice(c[p], d[p], w, p) && InOffice(d[p], e[p], w, p);
    }
  }

  lemma VotesOne(c: Cluster, p: int, s: Server, w: Race)
    requires p in c && VoteMoves(c[p], s) && VoteFor(c[p], s, w) && InOffice(c[p], s, w, p)
    ensures VotesStep(c, c[p := s], w)
  {
  }

  lemma {:induction false} AskingVotes(c: Cluster, i: int, ps: seq<int>, w: Race)
    requires i in c && i !in ps && (forall p | p in ps :: p in c)
    requires w.Race? && w.candidate == i && w.term == c[i].term
    ensures VotesStep(c, CollectVotes(c, i, ps).0, w) && CollectVotes(c, i, ps).0[i] == c[i]
  {
    hide VotesStep;
    if ps == [] {
      NothingVotes(c, w);
    } else {
      var p := ps[|ps| - 1];
      AskingVotes(c, i, ps[..|ps| - 1], w);
      var (c1, votes) := CollectVotes(c, i, ps[..|ps| - 1]);
      if CanReach(c1, i, p) {
        VotesOne(c1, p, HandleVote(c1[p], i, c1[i].term, |c1[i].log| - 1, LastTerm(c1[i].log)).0, w);
        VotesTrans(c, c1, AskStep(c1, votes, i, p).0, w);
      }
    }
  }

  lemma NothingVotes(c: Cluster, w: Race)
    ensures VotesStep(c, c, w)
  {
  }

  lemma AppendVotes(s: Server, i: int, t: nat, prev: Index, prevTerm: nat, entries: Log, commit: Index)
    ensures var u := HandleAppend(s, i, t, prev, prevTerm, entries, commit).0;
            VoteMoves(s, u) && NotCrowned(s, u) && VoteFor(s, u, NoRace)
  {
    hide Merge;
  }

  lemma {:induction false} BeatingVotes(c: Cluster, i: int, ps: seq<int>, w: Race)
    requires i in c && forall p | p in ps :: p in c
    ensures VotesStep(c, Heartbeats(c, i, ps), w)
  {
    hide HandleAppend, VotesStep;
    if ps == [] {
      NothingVotes(c, w);
    } else {
      var p := ps[|ps| - 1];
      BeatingVotes(c, i, ps[..|ps| - 1], w);
      var c1 := Heartbeats(c, i, ps[..|ps| - 1]);
      if CanReach(c1, i, p) {
        var next: int := NextOf(c1[i], p);
        AppendVotes(c1[p], i, c1[i].term, next - 1, PrevTerm(c1[i].log, next), [], c1[i].commitIndex);
        VotesOne(c1, p, BeatStep(c1, i, p)[p], w);
        VotesTrans(c, c1, BeatStep(c1, i, p), w);
      }
    }
  }

  lemma {:induction false} SendingVotes(c: Cluster, i: int, p: int, w: Race)
    requires i in c && p in c
    ensures VotesStep(c, SendTo(c, i, p), w)
    decreases NextOf(c[i], p)
  {
    hide HandleAppend, VotesStep;
    var next: int := NextOf(c[i], p);
    AppendVotes(c[p], i, c[i].term, next - 1, PrevTerm(c[i].log, next), Suffix(c[i].log, next), c[i].commitIndex);
    var (s, ok) := Append(c, i, p, next);
    VotesOne(c, p, s, w);
    var (c1, ended) := SendOnce(c, i, p);
    VotesOne(c[p := s], i, c1[i], w);
    assert c1 == c[p := s][i := c1[i]];
    VotesTrans(c, c[p := s], c1, w);
    if !ended {
      SendingVotes(c1, i, p, w);
      VotesTrans(c, c1, SendTo(c1, i, p), w);
    }
  }

  lemma {:induction false} ReplicatingVotes(c: Cluster, i: int, ps: seq<int>, w: Race)
    requires i in c && i !in ps && forall p | p in ps :: p in c
    ensures VotesStep(c, Replicate(c, i, ps), w)
  {
    hide SendTo, VotesStep;
    if ps == [] {
      NothingVotes(c, w);
    } else {
      var p := ps[|ps| - 1];
      ReplicatingVotes(c, i, ps[..|ps| - 1], w);
      var c1 := Replicate(c, i, ps[..|ps| - 1]);
      if CanReach(c1, i, p) {
        SendingVotes(c1, i, p, w);
        VotesTrans(c, c1, SendTo(c1, i, p), w);
      }
    }
  }

  lemma ReplicateLogVotes(c: Cluster, i: int)
    requires Mesh(c) && i in c
    ensures VotesStep(c, ReplicateLog(c, i), NoRace)
  {
    hide VotesStep;
    assert MeshAt(c, i);
    NothingVotes(c, NoRace);
    if c[i].role == Leader {
      ReplicatingVotes(c, i, c[i].peers, NoRace);
    }
  }

  lemma ClientVotes(c: Cluster, i: int, message: string)
    requires Mesh(c) && i in c
    ensures VotesStep(c, ClientMessage(c, i, message).0, NoRace)
  {
    hide VotesStep, ReplicateLog, CommitScan;
    NothingVotes(c, NoRace);
    if c[i].active && c[i].role == Leader {
      var c0 := c[i := c[i].(log := c[i].log + [LogEntry(c[i].term, message)])];
      MeshStays(c, c0);
      VotesOne(c, i, c0[i], NoRace);
      ReplicateLogVotes(c0, i);
      var c1 := ReplicateLog(c0, i);
      VotesTrans(c, c0, c1, NoRace);
      VotesOne(c1, i, Commit(c1[i]), NoRace);
      VotesTrans(c, c1, c1[i := Commit(c1[i])], NoRace);
    }
  }

  lemma SyncVotes(c: Cluster, i: int, l: int)
    requires i in c && l in c
    ensures VotesStep(c, SyncFromLeader(c, i, l).0, NoRace)
  {
    hide VotesStep, SendTo;
    NothingVotes(c, NoRace);
    if c[i].active && c[l].active && c[l].role == Leader {
      SendingVotes(c, l, i, NoRace);
      var c1 := SendTo(c, l, i);
      var s := LearnCommit(c1[i], c1[l].commitIndex);
      VotesOne(c1, i, s, NoRace);
      VotesTrans(c, c1, c1[i := s], NoRace);
    }
  }

  lemma ElectVotes(c: Cluster, i: int)
    requires Mesh(c) && i in c
    ensures VotesStep(c, StartElection(c, i).0, RaceOf(c, Elect(i)))
  {
    hide VotesStep, CollectVotes, Heartbeats;
    assert MeshAt(c, i);
    var w := RaceOf(c, Elect(i));
    NothingVotes(c, w);
    if c[i].active {
      var ps := c[i].peers;
      var c0 := c[i := Candidacy(c[i], i)];
      VotesOne(c, i, c0[i], w);
      AskingVotes(c0, i, ps, w);
      var c1 := CollectVotes(c0, i, ps).0;
      VotesTrans(c, c0, c1, w);
      var s := if StartElection(c, i).1 then Crowned(c1[i], i) else c1[i].(role := Follower);
      VotesOne(c1, i, s, w);
      VotesTrans(c, c1, c1[i := s], w);
      if StartElection(c, i).1 {
        VotesLeave(c, i, ps);
        BeatingVotes(c1[i := s], i, ps, w);
        VotesTrans(c, c1[i := s], Heartbeats(c1[i := s], i, ps), w);
      }
    }
  }

  lemma QuietVotes(c: Cluster, i: int, s: Server)
    requires i in c && s.term == c[i].term && s.votedFor == c[i].votedFor
    requires s.role == Leader ==> c[i].role == Leader && s.leaderId == c[i].leaderId
    ensures VotesStep(c, c[i := s], NoRace)
  {
    VotesOne(c, i, s, NoRace);
  }

  lemma CommitVotes(c: Cluster, i: int)
    requires i in c
    ensures VotesStep(c, c[i := Commit(c[i])], NoRace)
  {
    hide CommitScan;
    QuietVotes(c, i, Commit(c[i]));
  }

  /** Every call but recover() keeps votes within a term, votes are cast only for whoever stands, and nobody but the
      winner of an election takes office. */
  lemma CallVotes(c: Cluster, a: Action)
    requires Mesh(c) && !a.Recover?
    ensures VotesStep(c, Next(c, a), RaceOf(c, a))
  {
    hide VotesStep, StartElection, ClientMessage, SyncFromLeader, ReplicateLog, Commit;
    NothingVotes(c, NoRace);
    if Enabled(c, a) {
      match a
      case Elect(i) => ElectVotes(c, i);
      case Client(i, m) => ClientVotes(c, i, m);
      case Replicating(i) => ReplicateLogVotes(c, i);
      case Committing(i) => CommitVotes(c, i);
      case Crash(i) => QuietVotes(c, i, c[i].(active := false));
      case RecoverDurable(i) => QuietVotes(c, i, RecoveredDurably(c[i]));
      case Partition(i, ids) => QuietVotes(c, i, c[i].(partitionedFrom := ids));
      case Heal(i) => QuietVotes(c, i, c[i].(partitionedFrom := {}));
      case Sync(i, l) => SyncVotes(c, i, l);
    }
  }

  // ---- whom votes are for ----

  /** Call a makes x stand in term t. */
  ghost predicate Stands(c: Cluster, a: Action, x: int, t: nat) {
    a == Elect(x) && x in c && c[x].active && t == c[x].term + 1
  }

  /** One of the first k calls made x stand in term t. */
  ghost predicate Stood(c0: Cluster, acts: seq<Action>, k: nat, x: int, t: nat)
    requires Mesh(c0) && k <= |acts|
  {
    exists m | 0 <= m < k :: Stands(State(c0, acts, m), acts[m], x, t)
  }

  ghost predicate VoteOk(c0: Cluster, acts: seq<Action>, k: nat, p: int)
    requires Mesh(c0) && k <= |acts| && p in c0
  {
    var s := State(c0, acts, k)[p];
    s.votedFor != None ==> Stood(c0, acts, k, s.votedFor.value, s.term)
  }

  /** In every run, admissible or not, a recorded vote is for a server that stood in exactly the term the voter is in:
      entering a term, by a vote request or by an append, clears the vote, and a refused request leaves none behind. */
  lemma {:induction false} VotesForCandidates(c0: Cluster, acts: seq<Action>, k: nat, p: int)
    requires Mesh(c0) && Fresh(c0) && k <= |acts| && p in c0
    ensures VoteOk(c0, acts, k, p)
  {
    hide State, Next, Stands, Fresh;
    if k == 0 {
      NoVoteYet(c0, acts, p);
    } else {
      VotesForCandidates(c0, acts, k - 1, p);
      StateNext(c0, acts, k - 1);
      var c, a := State(c0, acts, k - 1), acts[k - 1];
      VoteCast(c, a, p);
      var u := State(c0, acts, k)[p];
      if u.votedFor != None && u.votedFor == c[p].votedFor && u.term == c[p].term {
        var m :| 0 <= m < k - 1 && Stands(State(c0, acts, m), acts[m], u.votedFor.value, u.term);
        assert Stood(c0, acts, k, u.votedFor.value, u.term);
      }
    }
  }

  lemma NoVoteYet(c0: Cluster, acts: seq<Action>, p: int)
    requires Mesh(c0) && Fresh(c0) && p in c0
    ensures State(c0, acts, 0)[p].votedFor == None
  {
    assert c0[p] == FreshServer(c0[p].peers);
  }

  /** A vote after a call was there before, or is for the server that the call made stand. */
  lemma VoteCast(c: Cluster, a: Action, p: int)
    requires Mesh(c) && p in c
    ensures var u := Next(c, a)[p];
            u.votedFor != None ==>
              (u.votedFor == c[p].votedFor && u.term == c[p].term) || Stands(c, a, u.votedFor.value, u.term)
  {
    if !a.Recover? {
      if a.Elect? && a.i in c && !c[a.i].active {
        assert Next(c, a) == c;
      } else {
        hide Next;
        CallVotes(c, a);
        assert VoteFor(c[p], Next(c, a)[p], RaceOf(c, a));
      }
    }
  }

  /** In every run a server in office takes itself for the leader. */
  lemma {:induction false} LeaderNamesItself(c0: Cluster, acts: seq<Action>, k: nat, i: int, t: nat)
    requires Mesh(c0) && Fresh(c0) && k <= |acts| && Leads(State(c0, acts, k), i, t)
    ensures State(c0, acts, k)[i].leaderId == i
  {
    hide State, Next;
    if k == 0 {
      NobodyInOffice(c0, acts, i);
    } else {
      StateNext(c0, acts, k - 1);
      var c := State(c0, acts, k - 1);
      OfficeStep(c, acts[k - 1], i);
      if c[i].role == Leader {
        LeaderNamesItself(c0, acts, k - 1, i, c[i].term);
      }
    }
  }

  lemma NobodyInOffice(c0: Cluster, acts: seq<Action>, i: int)
    requires Mesh(c0) && Fresh(c0) && i in c0
    ensures State(c0, acts, 0)[i].role != Leader
  {
    assert c0[i] == FreshServer(c0[i].peers);
  }

  lemma OfficeStep(c: Cluster, a: Action, i: int)
    requires Mesh(c) && i in c && Next(c, a)[i].role == Leader
    ensures Next(c, a)[i].leaderId == i || (c[i].role == Leader && Next(c, a)[i].leaderId == c[i].leaderId)
  {
    if !a.Recover? {
      hide Next;
      CallVotes(c, a);
      assert InOffice(c[i], Next(c, a)[i], RaceOf(c, a), i);
    }
  }

  // ---- sealed terms ----

  /** The server will not vote for anyone but l in term t: it is past the term or its vote says so. */
  predicate Remembers(s: Server, t: nat, l: int) {
    t < s.term || (t == s.term && s.votedFor == Some(l))
  }

  ghost function Remember(c: Cluster, t: nat, l: int): set<int> {
    set v | v in c && Remembers(c[v], t, l)
  }

  /** No second server can win term t: nobody is left to stand in it, or those who remember its leader l meet
      every majority. */
  ghost predicate Sealed(c: Cluster, t: nat, l: int) {
    (forall v | v in c :: t <= c[v].term) || Blocks(c, Remember(c, t, l))
  }

  lemma SealedStays(c: Cluster, d: Cluster, t: nat, l: int, w: Race)
    requires Sealed(c, t, l) && VotesStep(c, d, w)
    ensures Sealed(d, t, l)
  {
    assert |c| == |c.Keys| && |d| == |d.Keys|;
    if exists v :: v in c && c[v].term < t {
      forall v | v in Remember(c, t, l) ensures v in Remember(d, t, l) {
        assert VoteMoves(c[v], d[v]);
      }
      Within(Remember(c, t, l), Remember(d, t, l));
    } else {
      forall v | v in d ensures t <= d[v].term {
        assert VoteMoves(c[v], d[v]);
      }
    }
  }

  /** Section 5.2: no second winner in a sealed term. The votes it needs and those that remember the leader
      would have to overlap. */
  lemma NoSecondWinner(c: Cluster, i: int, l: int)
    requires Mesh(c) && i in c && i != l && Sealed(c, c[i].term + 1, l)
    ensures !StartElection(c, i).1
  {
    hide StartElection, CanReach, UpToDate;
    assert MeshAt(c, i);
    var t := c[i].term + 1;
    var won := GrantingPeers(c, i) + {i};
    MeshSize(c, i);
    ElectionWonIff(c, i);
    assert |won| == 1 + |GrantingPeers(c, i)|;
    assert forall v | v in Remember(c, t, l) :: v !in won;
    BlocksExcludes(c, Remember(c, t, l), won);
  }

  /** Whoever grants a vote remembers it. */
  lemma GrantRemembers(c: Cluster, i: int, v: int)
    requires i in c && v in c && Grants(c, i, v)
    ensures Remembers(Asked(c, i, v), c[i].term + 1, i)
  {
  }

  /** A won election seals its term. */
  lemma WinnerSeals(c: Cluster, i: int)
    requires Mesh(c) && i in c && StartElection(c, i).1
    ensures Sealed(StartElection(c, i).0, c[i].term + 1, i)
  {
    hide CollectVotes, Heartbeats, VotesStep, Sealed, Crowned;
    assert MeshAt(c, i);
    var c1 := CollectVotes(c[i := Candidacy(c[i], i)], i, c[i].peers).0;
    VotesLeave(c, i, c[i].peers);
    var c2 := c1[i := Crowned(c1[i], i)];
    CrownedLeads(c1[i], i);
    CrownedSeals(c, c2, i);
    BeatingVotes(c2, i, c[i].peers, NoRace);
    SealedStays(c2, Heartbeats(c2, i, c[i].peers), c[i].term + 1, i, NoRace);
  }

  lemma CrownedSeals(c: Cluster, c2: Cluster, i: int)
    requires Mesh(c) && i in c && StartElection(c, i).1 && c2.Keys == c.Keys
    requires c2[i].term == c[i].term + 1 && c2[i].votedFor == Some(i)
    requires forall p | p in c[i].peers :: p in c && c2[p] == Asked(c, i, p)
    ensures Sealed(c2, c[i].term + 1, i)
  {
    hide StartElection, Asked, Grants, Remembers;
    WonByMajority(c, i);
    assert MeshAt(c, i);
    OwnVoteRemembers(c2[i], c[i].term + 1, i);
    forall v | v in GrantingPeers(c, i) ensures v in Remember(c2, c[i].term + 1, i) {
      GrantRemembers(c, i, v);
    }
    Within(GrantingPeers(c, i) + {i}, Remember(c2, c[i].term + 1, i));
    assert |c2| == |c2.Keys| == |c.Keys| == |c|;
  }

  lemma OwnVoteRemembers(s: Server, t: nat, i: int)
    requires s.term == t && s.votedFor == Some(i)
    ensures Remembers(s, t, i)
  {
  }

  lemma WonByMajority(c: Cluster, i: int)
    requires Mesh(c) && i in c && StartElection(c, i).1
    ensures Quorum(c, GrantingPeers(c, i) + {i})
  {
    hide StartElection, Grants;
    assert MeshAt(c, i);
    MeshSize(c, i);
    ElectionWonIff(c, i);
    assert i !in GrantingPeers(c, i);
    assert |GrantingPeers(c, i) + {i}| == 1 + |GrantingPeers(c, i)|;
  }

  // ---- recover() ----

  /** A reading of the cluster before recover() is called on i: every server has reached i's term, or, without i, the
      servers that are past the term or have voted in it as i has still meet every majority. */
  ghost predicate StillRemembered(c: Cluster, i: int)
    requires i in c
  {
    c[i].votedFor != None ==>
      (forall v | v in c :: c[i].term <= c[v].term)
      || Blocks(c, Remember(c, c[i].term, c[i].votedFor.value) - {i})
  }

  /** recover() leaves the term of the vote it clears sealed exactly on that condition. */
  lemma RecoverSealsIff(c: Cluster, i: int)
    requires i in c && c[i].votedFor != None
    ensures Sealed(c[i := Recovered(c[i])], c[i].term, c[i].votedFor.value) <==> StillRemembered(c, i)
  {
    var t, l, c' := c[i].term, c[i].votedFor.value, c[i := Recovered(c[i])];
    assert |c| == |c.Keys| && |c'| == |c'.Keys| && c'.Keys == c.Keys;
    assert Remember(c', t, l) == Remember(c, t, l) - {i};
    assert (forall v | v in c' :: t <= c'[v].term) <==> (forall v | v in c :: t <= c[v].term);
  }

  /** It leaves every other term as it was. */
  lemma RecoverSpares(c: Cluster, i: int, t: nat, l: int)
    requires i in c && !(t == c[i].term && c[i].votedFor == Some(l))
    ensures Sealed(c[i := Recovered(c[i])], t, l) <==> Sealed(c, t, l)
  {
    var c' := c[i := Recovered(c[i])];
    assert |c| == |c.Keys| && |c'| == |c'.Keys| && c'.Keys == c.Keys;
    assert Remember(c', t, l) == Remember(c, t, l);
    assert (forall v | v in c' :: t <= c'[v].term) <==> (forall v | v in c :: t <= c[v].term);
  }

  // ---- runs ----

  /** Server i's vote in its current term went to a server that has led that term. */
  ghost predicate VotedForLeader(c0: Cluster, acts: seq<Action>, k: nat, i: int)
    requires Mesh(c0) && k <= |acts| && i in c0
  {
    var s := State(c0, acts, k)[i];
    s.votedFor != None && exists m | 0 <= m <= k :: Leads(State(c0, acts, m), s.votedFor.value, s.term)
  }

  /** If the k-th call is a recover() that clears a vote for a leader of the term, enough others remember it. */
  ghost predicate RecoverCareful(c0: Cluster, acts: seq<Action>, k: nat)
    requires Mesh(c0) && k < |acts|
  {
    var c := State(c0, acts, k);
    acts[k].Recover? && acts[k].i in c && VotedForLeader(c0, acts, k, acts[k].i) ==> StillRemembered(c, acts[k].i)
  }

  ghost predicate Careful(c0: Cluster, acts: seq<Action>) {
    Mesh(c0) && Fresh(c0) && forall k | 0 <= k < |acts| :: RecoverCareful(c0, acts, k)
  }

  /** Every term led so far is sealed, and its leader has not fallen behind it. */
  ghost predicate LedSealed(c0: Cluster, acts: seq<Action>, k: nat)
    requires Mesh(c0) && k <= |acts|
  {
    forall m, l, t: nat | 0 <= m <= k && Leads(State(c0, acts, m), l, t) :: SealedFor(State(c0, acts, k), l, t)
  }

  ghost predicate SealedFor(c: Cluster, l: int, t: nat) {
    l in c && t <= c[l].term && Sealed(c, t, l)
  }

  lemma StepSeals(c0: Cluster, acts: seq<Action>, k: nat, l: int, t: nat)
    requires Mesh(c0) && k < |acts| && RecoverCareful(c0, acts, k) && LedSealed(c0, acts, k)
    requires SealedFor(State(c0, acts, k), l, t)
    requires exists m | 0 <= m <= k :: Leads(State(c0, acts, m), l, t)
    ensures SealedFor(State(c0, acts, k + 1), l, t)
  {
    hide State, StillRemembered, Sealed, VotesStep;
    var c, a := State(c0, acts, k), acts[k];
    StateNext(c0, acts, k);
    if a.Recover? {
      if a.i in c {
        if t == c[a.i].term && c[a.i].votedFor == Some(l) {
          assert VotedForLeader(c0, acts, k, a.i);
          RecoverSealsIff(c, a.i);
        } else {
          RecoverSpares(c, a.i, t, l);
        }
      }
    } else {
      CallKeepsSealed(c, a, l, t);
    }
  }

  lemma CallKeepsSealed(c: Cluster, a: Action, l: int, t: nat)
    requires Mesh(c) && !a.Recover? && SealedFor(c, l, t)
    ensures SealedFor(Next(c, a), l, t)
  {
    hide Next, Sealed, StartElection;
    CallVotes(c, a);
    SealedStays(c, Next(c, a), t, l, RaceOf(c, a));
    assert VoteMoves(c[l], Next(c, a)[l]);
  }

  /** Whoever leads after a call led before it, or has just won. */
  lemma NewLeaderSeals(c: Cluster, a: Action, l: int, t: nat)
    requires Mesh(c) && Leads(Next(c, a), l, t)
    ensures Leads(c, l, t) || SealedFor(Next(c, a), l, t)
  {
    hide StartElection, Sealed;
    if !a.Recover? {
      hide Next;
      CallVotes(c, a);
      if a.Elect? && a.i in c && StartElection(c, a.i).1 && l == a.i {
        WinnerIs(c, l, t);
      } else {
        assert InOffice(c[l], Next(c, a)[l], RaceOf(c, a), l);
      }
    }
  }

  lemma WinnerIs(c: Cluster, i: int, t: nat)
    requires Mesh(c) && i in c && StartElection(c, i).1 && Leads(Next(c, Elect(i)), i, t)
    ensures SealedFor(Next(c, Elect(i)), i, t)
  {
    hide Sealed;
    WinnerSeals(c, i);
    WinnerTakesOffice(c, i);
  }

  lemma WinnerTakesOffice(c: Cluster, i: int)
    requires Mesh(c) && i in c && StartElection(c, i).1
    ensures Leads(Next(c, Elect(i)), i, c[i].term + 1)
  {
    hide CollectVotes, Heartbeats;
    assert MeshAt(c, i);
    var ps := c[i].peers;
    VotesLeave(c, i, ps);
    var c1 := CollectVotes(c[i := Candidacy(c[i], i)], i, ps).0;
    BeatsLeave(c1[i := Crowned(c1[i], i)], i, ps);
  }

  lemma NobodyLeads(c0: Cluster, acts: seq<Action>)
    requires Mesh(c0) && Fresh(c0)
    ensures LedSealed(c0, acts, 0)
  {
    forall i, t: nat ensures !Leads(State(c0, acts, 0), i, t) {
      assert i in c0 ==> c0[i] == FreshServer(c0[i].peers);
    }
  }

  lemma {:induction false} LedStaysSealed(c0: Cluster, acts: seq<Action>, k: nat)
    requires Careful(c0, acts) && k <= |acts|
    ensures LedSealed(c0, acts, k)
  {
    hide State, Next, SealedFor, Leads, RecoverCareful, Fresh;
    if k == 0 {
      NobodyLeads(c0, acts);
    } else {
      LedStaysSealed(c0, acts, k - 1);
      StateNext(c0, acts, k - 1);
      forall m, l, t: nat | 0 <= m <= k && Leads(State(c0, acts, m), l, t)
        ensures SealedFor(State(c0, acts, k), l, t)
      {
        if m == k {
          NewLeaderSeals(State(c0, acts, k - 1), acts[k - 1], l, t);
        }
        if m < k || Leads(State(c0, acts, k - 1), l, t) {
          assert SealedFor(State(c0, acts, k - 1), l, t);
          StepSeals(c0, acts, k - 1, l, t);
        }
      }
    }
  }

  /** A run whose recover() calls are careful never elects a second leader of a term. */
  lemma CarefulNeverTwice(c0: Cluster, acts: seq<Action>, k: nat, i: int)
    requires Careful(c0, acts) && k <= |acts| && i in c0 && StartElection(State(c0, acts, k), i).1
    ensures !Led(c0, acts, k, State(c0, acts, k)[i].term + 1)
  {
    hide State, Sealed, StartElection;
    var c := State(c0, acts, k);
    LedStaysSealed(c0, acts, k);
    if Led(c0, acts, k, c[i].term + 1) {
      var m, l :| 0 <= m <= k && Leads(State(c0, acts, m), l, c[i].term + 1);
      assert SealedFor(c, l, c[i].term + 1);
      NoSecondWinner(c, i, l);
      assert false;
    }
  }

  /** So it is a run to which all the theorems apply, if its syncs are safe to believe. */
  lemma CarefulIsAdmissible(c0: Cluster, acts: seq<Action>)
    requires Careful(c0, acts)
    requires forall k | 0 <= k < |acts| :: SyncBelievable(c0, acts, k)
    ensures Admissible(c0, acts)
  {
    hide State, Led, StartElection, SyncSafe;
    forall k | 0 <= k < |acts| ensures Allowed(c0, acts, k) {
      assert SyncBelievable(c0, acts, k);
      if acts[k].Elect? && acts[k].i in c0 && StartElection(State(c0, acts, k), acts[k].i).1 {
        CarefulNeverTwice(c0, acts, k, acts[k].i);
      }
    }
  }

  ghost predicate SyncBelievable(c0: Cluster, acts: seq<Action>, k: nat)
    requires Mesh(c0) && k < |acts|
  {
    var c := State(c0, acts, k);
    acts[k].Sync? && acts[k].i in c && acts[k].leader in c ==> SyncSafe(c, acts[k].i, acts[k].leader)
  }

  /** Election Safety: in every run whose recover() calls are careful, whatever its syncs, at most one server ever
      leads a term. */
  lemma ElectionSafety(c0: Cluster, acts: seq<Action>, a: nat, b: nat, i: int, j: int, t: nat)
    requires Careful(c0, acts) && a <= |acts| && b <= |acts|
    requires Leads(State(c0, acts, a), i, t) && Leads(State(c0, acts, b), j, t)
    ensures i == j
  {
    if a <= b {
      NoLaterLeader(c0, acts, a, b, i, j, t);
    } else {
      NoLaterLeader(c0, acts, b, a, j, i, t);
    }
  }

  /** Nobody takes office in a term already led. */
  lemma OfficeIsNew(c0: Cluster, acts: seq<Action>, k: nat, j: int, t: nat)
    requires Careful(c0, acts) && k < |acts|
    requires Leads(State(c0, acts, k + 1), j, t) && !Leads(State(c0, acts, k), j, t)
    ensures !Led(c0, acts, k, t)
  {
    hide State, Next, Fresh, RecoverCareful, StartElection, Led, Leads;
    StateNext(c0, acts, k);
    TookOffice(State(c0, acts, k), acts[k], j, t);
    CarefulNeverTwice(c0, acts, k, j);
  }

  lemma {:induction false} NoLaterLeader(c0: Cluster, acts: seq<Action>, a: nat, b: nat, i: int, j: int, t: nat)
    requires Careful(c0, acts) && a <= b <= |acts|
    requires Leads(State(c0, acts, a), i, t) && Leads(State(c0, acts, b), j, t)
    ensures i == j
    decreases b
  {
    hide State, RecoverCareful, Fresh, Leads;
    if a == b {
      SameStateOneLeader(c0, acts, a, i, j, t);
    } else if Leads(State(c0, acts, b - 1), j, t) {
      NoLaterLeader(c0, acts, a, b - 1, i, j, t);
    } else {
      assert Led(c0, acts, b - 1, t);
      OfficeIsNew(c0, acts, b - 1, j, t);
    }
  }

  /** Whoever leads after a call and did not before has won an election for the next term. */
  lemma TookOffice(c: Cluster, a: Action, j: int, t: nat)
    requires Mesh(c) && Leads(Next(c, a), j, t) && !Leads(c, j, t)
    ensures j in c && StartElection(c, j).1 && t == c[j].term + 1
  {
    hide StartElection;
    if !a.Recover? {
      CallVotes(c, a);
      assert InOffice(c[j], Next(c, a)[j], RaceOf(c, a), j);
      if a.Elect? && a.i in c && StartElection(c, a.i).1 && j == a.i {
        WinnerTakesOffice(c, j);
      }
    }
  }

  lemma {:induction false} SameStateOneLeader(c0: Cluster, acts: seq<Action>, a: nat, i: int, j: int, t: nat)
    requires Careful(c0, acts) && a <= |acts| && Leads(State(c0, acts, a), i, t) && Leads(State(c0, acts, a), j, t)
    ensures i == j
    decreases a
  {
    hide State, RecoverCareful, Fresh, Leads, Next;
    if a == 0 {
      StartsLeaderless(c0, acts, i, t);
    } else {
      var c := State(c0, acts, a - 1);
      StateNext(c0, acts, a - 1);
      if Leads(c, i, t) && Leads(c, j, t) {
        SameStateOneLeader(c0, acts, a - 1, i, j, t);
      } else if !Leads(c, i, t) && !Leads(c, j, t) {
        BothTookOffice(c, acts[a - 1], i, j, t);
      } else {
        assert Led(c0, acts, a - 1, t);
        OfficeIsNew(c0, acts, a - 1, if Leads(c, i, t) then j else i, t);
      }
    }
  }

  lemma BothTookOffice(c: Cluster, a: Action, i: int, j: int, t: nat)
    requires Mesh(c) && Leads(Next(c, a), i, t) && Leads(Next(c, a), j, t) && !Leads(c, i, t) && !Leads(c, j, t)
    ensures i == j
  {
    hide StartElection;
    if !a.Recover? {
      CallVotes(c, a);
      assert InOffice(c[i], Next(c, a)[i], RaceOf(c, a), i);
      assert InOffice(c[j], Next(c, a)[j], RaceOf(c, a), j);
    }
  }

  lemma StartsLeaderless(c0: Cluster, acts: seq<Action>, i: int, t: nat)
    requires Careful(c0, acts)
    ensures !Leads(State(c0, acts, 0), i, t)
  {
    assert i in c0 ==> c0[i] == FreshServer(c0[i].peers);
  }

  // ---- what the other theorems ask for ----

  ghost predicate LedByOne(c0: Cluster, acts: seq<Action>)
    requires Mesh(c0)
  {
    forall a, b, i, j, t: nat | 0 <= a <= |acts| && 0 <= b <= |acts| ::
      Leads(State(c0, acts, a), i, t) && Leads(State(c0, acts, b), j, t) ==> i == j
  }

  /** The theorems about logs and commits ask of a run with believable syncs exactly that no term has two leaders. */
  lemma AdmissibleIff(c0: Cluster, acts: seq<Action>)
    requires Mesh(c0) && Fresh(c0) && forall k | 0 <= k < |acts| :: SyncBelievable(c0, acts, k)
    ensures Admissible(c0, acts) <==> LedByOne(c0, acts)
  {
    hide State, Led, StartElection, SyncSafe, Leads, Next;
    if Admissible(c0, acts) {
      forall a, b, i, j, t: nat | 0 <= a <= |acts| && 0 <= b <= |acts|
        && Leads(State(c0, acts, a), i, t) && Leads(State(c0, acts, b), j, t)
        ensures i == j
      {
        OneLeaderPerTerm(c0, acts, a, b, i, j, t);
      }
    }
    if LedByOne(c0, acts) {
      forall k | 0 <= k < |acts| ensures Allowed(c0, acts, k) {
        assert SyncBelievable(c0, acts, k);
        if acts[k].Elect? && acts[k].i in c0 && StartElection(State(c0, acts, k), acts[k].i).1 {
          LedByOneAllows(c0, acts, k, acts[k].i);
        }
      }
    }
  }

  lemma LedByOneAllows(c0: Cluster, acts: seq<Action>, k: nat, i: int)
    requires Mesh(c0) && k < |acts| && LedByOne(c0, acts) && acts[k] == Elect(i) && i in c0
    requires StartElection(State(c0, acts, k), i).1
    ensures !Led(c0, acts, k, State(c0, acts, k)[i].term + 1)
  {
    hide State, StartElection;
    var t := State(c0, acts, k)[i].term + 1;
    StateNext(c0, acts, k);
    WinnerTakesOffice(State(c0, acts, k), i);
    assert Leads(State(c0, acts, k + 1), i, t);
    if Led(c0, acts, k, t) {
      var m, l :| 0 <= m <= k && Leads(State(c0, acts, m), l, t);
      TermsRise(c0, acts, m, k, l);
      assert false;
    }
  }
}
