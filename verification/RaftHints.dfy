/** What a server's leader_id is worth: it names a server that has led the holder's own term, unless the holder has
    since stood for election itself; then it may name the leader of an earlier term. */
module RaftHints {
  import opened RaftServer
  import opened RaftCluster
  import opened RaftInvariant
  import opened RaftSafety

  /** Server p's hint is cleared, becomes i in i's term t, or stays; it can outlast the term only if p has
      voted for itself since. */
  predicate HintMoves(p: int, s: Server, u: Server, i: int, t: nat) {
    s.term <= u.term &&
    (u.leaderId == -1
     || (u.leaderId == i && (u.term == t || (t <= u.term && u.votedFor == Some(p))))
     || (u.leaderId == s.leaderId && (u.votedFor == Some(p) || (u.term == s.term && s.votedFor != Some(p)))))
  }

  ghost predicate HintStep(c: Cluster, d: Cluster, i: int, t: nat) {
    d.Keys == c.Keys && forall p | p in c :: HintMoves(p, c[p], d[p], i, t)
  }

  lemma HintTrans(c: Cluster, d: Cluster, e: Cluster, i: int, t: nat)
    requires HintStep(c, d, i, t) && HintStep(d, e, i, t)
    ensures HintStep(c, e, i, t)
  {
    forall p | p in c ensures HintMoves(p, c[p], e[p], i, t) {
      assert HintMoves(p, c[p], d[p], i, t) && HintMoves(p, d[p], e[p], i, t);
    }
  }

  lemma HintOne(c: Cluster, p: int, s: Server, i: int, t: nat)
    requires p in c && HintMoves(p, c[p], s, i, t)
    ensures HintStep(c, c[p := s], i, t)
  {
  }

  lemma {:induction false} VotesHint(c: Cluster, i: int, ps: seq<int>, l: int, t: nat)
    requires i in c && forall p | p in ps :: p in c
    ensures HintStep(c, CollectVotes(c, i, ps).0, l, t)
  {
    if ps != [] {
      var p := ps[|ps| - 1];
      VotesHint(c, i, ps[..|ps| - 1], l, t);
      var (c1, votes) := CollectVotes(c, i, ps[..|ps| - 1]);
      HintOne(c1, p, AskStep(c1, votes, i, p).0[p], l, t);
      HintTrans(c, c1, AskStep(c1, votes, i, p).0, l, t);
    }
  }

  lemma AppendHint(p: int, s: Server, i: int, t: nat, prev: Index, prevTerm: nat, entries: Log, commit: Index)
    ensures HintMoves(p, s, HandleAppend(s, i, t, prev, prevTerm, entries, commit).0, i, t)
    ensures s.term == t ==> HandleAppend(s, i, t, prev, prevTerm, entries, commit).0.term == t
  {
    hide Merge;
  }

  lemma {:induction false} BeatsHint(c: Cluster, i: int, ps: seq<int>)
    requires i in c && i !in ps && forall p | p in ps :: p in c
    ensures HintStep(c, Heartbeats(c, i, ps), i, c[i].term) && Heartbeats(c, i, ps)[i] == c[i]
  {
    hide HandleAppend;
    if ps != [] {
      var p := ps[|ps| - 1];
      BeatsHint(c, i, ps[..|ps| - 1]);
      var c1 := Heartbeats(c, i, ps[..|ps| - 1]);
      var next: int := NextOf(c1[i], p);
      AppendHint(p, c1[p], i, c1[i].term, next - 1, PrevTerm(c1[i].log, next), [], c1[i].commitIndex);
      HintOne(c1, p, BeatStep(c1, i, p)[p], i, c[i].term);
      HintTrans(c, c1, BeatStep(c1, i, p), i, c[i].term);
    }
  }

  /** A leader's term and role survive what it does to its peers. */
  predicate StillLeads(s: Server, u: Server) {
    u.role == s.role && u.term == s.term && u.leaderId == s.leaderId
  }

  lemma {:induction false} SendHint(c: Cluster, i: int, p: int)
    requires i in c && p in c
    ensures HintStep(c, SendTo(c, i, p), i, c[i].term) && (i != p ==> StillLeads(c[i], SendTo(c, i, p)[i]))
    decreases NextOf(c[i], p)
  {
    hide HandleAppend;
    var next: int := NextOf(c[i], p);
    AppendHint(p, c[p], i, c[i].term, next - 1, PrevTerm(c[i].log, next), Suffix(c[i].log, next), c[i].commitIndex);
    var (c1, ended) := SendOnce(c, i, p);
    assert HintStep(c, c1, i, c[i].term);
    if !ended {
      SendHint(c1, i, p);
      HintTrans(c, c1, SendTo(c1, i, p), i, c[i].term);
    }
  }

  lemma {:induction false} ReplicateHint(c: Cluster, i: int, ps: seq<int>)
    requires i in c && i !in ps && forall p | p in ps :: p in c
    ensures HintStep(c, Replicate(c, i, ps), i, c[i].term) && StillLeads(c[i], Replicate(c, i, ps)[i])
  {
    hide SendTo;
    if ps != [] {
      var p := ps[|ps| - 1];
      ReplicateHint(c, i, ps[..|ps| - 1]);
      var c1 := Replicate(c, i, ps[..|ps| - 1]);
      if CanReach(c1, i, p) {
        SendHint(c1, i, p);
        HintTrans(c, c1, SendTo(c1, i, p), i, c[i].term);
      }
    }
  }

  /** Whoever a step puts into a hint leads right before or after the step. */
  ghost predicate HintsFresh(c: Cluster, d: Cluster) {
    exists i, t: nat :: HintStep(c, d, i, t) && (Leads(c, i, t) || Leads(d, i, t) || i == -1)
  }

  lemma ElectHint(c: Cluster, i: int)
    requires Mesh(c) && i in c
    ensures HintsFresh(c, StartElection(c, i).0)
  {
    hide CollectVotes, Heartbeats, HintStep;
    assert MeshAt(c, i);
    var ps := c[i].peers;
    var c0 := c[i := Candidacy(c[i], i)];
    var (c1, votes) := CollectVotes(c0, i, ps);
    var t := c1[i].term;
    if !c[i].active {
      Unchanged(c);
    } else if IsMajority(votes, |ps| + 1) {
      HintOne(c, i, c0[i], i, t);
      VotesHint(c0, i, ps, i, t);
      HintTrans(c, c0, c1, i, t);
      var c2 := c1[i := Crowned(c1[i], i)];
      HintOne(c1, i, c2[i], i, t);
      HintTrans(c, c1, c2, i, t);
      BeatsHint(c2, i, ps);
      HintTrans(c, c2, Heartbeats(c2, i, ps), i, t);
      assert c1[i].peers == ps;
      assert Leads(Heartbeats(c2, i, ps), i, t);
    } else {
      HintOne(c, i, c0[i], -1, 0);
      VotesHint(c0, i, ps, -1, 0);
      HintTrans(c, c0, c1, -1, 0);
      HintOne(c1, i, c1[i].(role := Follower), -1, 0);
      HintTrans(c, c1, c1[i := c1[i].(role := Follower)], -1, 0);
    }
  }

  lemma Unchanged(c: Cluster)
    ensures HintsFresh(c, c)
  {
    assert HintStep(c, c, -1, 0);
  }

  lemma ReplicateLogHint(c: Cluster, i: int)
    requires Mesh(c) && i in c && c[i].role == Leader
    ensures HintStep(c, ReplicateLog(c, i), i, c[i].term) && StillLeads(c[i], ReplicateLog(c, i)[i])
  {
    assert MeshAt(c, i);
    ReplicateHint(c, i, c[i].peers);
  }

  lemma ClientHint(c: Cluster, i: int, message: string)
    requires Mesh(c) && i in c
    ensures HintsFresh(c, ClientMessage(c, i, message).0)
  {
    hide ReplicateLog, HintStep, CommitScan;
    if !c[i].active || c[i].role != Leader {
      Unchanged(c);
    } else {
      var c0 := c[i := c[i].(log := c[i].log + [LogEntry(c[i].term, message)])];
      MeshStays(c, c0);
      HintOne(c, i, c0[i], i, c[i].term);
      ReplicateLogHint(c0, i);
      var c1 := ReplicateLog(c0, i);
      HintTrans(c, c0, c1, i, c[i].term);
      HintOne(c1, i, Commit(c1[i]), i, c[i].term);
      HintTrans(c, c1, c1[i := Commit(c1[i])], i, c[i].term);
      assert Leads(c1[i := Commit(c1[i])], i, c[i].term);
    }
  }

  lemma SyncHint(c: Cluster, i: int, l: int)
    requires i in c && l in c
    ensures HintsFresh(c, SyncFromLeader(c, i, l).0)
  {
    hide SendTo, HintStep;
    if !c[i].active || !c[l].active || c[l].role != Leader {
      Unchanged(c);
    } else {
      SendHint(c, l, i);
      var c1 := SendTo(c, l, i);
      var s := LearnCommit(c1[i], c1[l].commitIndex);
      HintOne(c1, i, s, l, c[l].term);
      HintTrans(c, c1, c1[i := s], l, c[l].term);
      assert Leads(c, l, c[l].term);
    }
  }

  lemma StepHint(c: Cluster, a: Action)
    requires Mesh(c)
    ensures HintsFresh(c, Next(c, a))
  {
    hide HintsFresh, StartElection, ClientMessage, SyncFromLeader, ReplicateLog, Commit;
    if !Enabled(c, a) {
      Unchanged(c);
    } else {
      match a
      case Elect(i) => ElectHint(c, i);
      case Client(i, m) => ClientHint(c, i, m);
      case Sync(i, l) => SyncHint(c, i, l);
      case Replicating(i) => ReplicatingHint(c, i);
      case Committing(i) => CommitHint(c, i);
      case Crash(i) => OwnHint(c, i, c[i].(active := false));
      case Recover(i) => OwnHint(c, i, Recovered(c[i]));
      case RecoverDurable(i) => OwnHint(c, i, RecoveredDurably(c[i]));
      case Partition(i, ids) => OwnHint(c, i, c[i].(partitionedFrom := ids));
      case Heal(i) => OwnHint(c, i, c[i].(partitionedFrom := {}));
    }
  }

  lemma OwnHint(c: Cluster, i: int, s: Server)
    requires i in c && HintMoves(i, c[i], s, -1, 0)
    ensures HintsFresh(c, c[i := s])
  {
    HintOne(c, i, s, -1, 0);
  }

  lemma CommitHint(c: Cluster, i: int)
    requires i in c
    ensures HintsFresh(c, c[i := Commit(c[i])])
  {
    hide CommitScan, HintsFresh;
    OwnHint(c, i, Commit(c[i]));
  }

  lemma ReplicatingHint(c: Cluster, i: int)
    requires Mesh(c) && i in c
    ensures HintsFresh(c, ReplicateLog(c, i))
  {
    if c[i].role == Leader {
      hide ReplicateLog;
      ReplicateLogHint(c, i);
      assert Leads(ReplicateLog(c, i), i, c[i].term);
    } else {
      Unchanged(c);
    }
  }

  /** In every run, admissible or not, terms never fall. */
  lemma {:induction false} TermsRise(c0: Cluster, acts: seq<Action>, m: nat, k: nat, p: int)
    requires Mesh(c0) && m <= k <= |acts| && p in c0
    ensures State(c0, acts, m)[p].term <= State(c0, acts, k)[p].term
  {
    hide Next, State, HintStep;
    if m < k {
      TermsRise(c0, acts, m, k - 1, p);
      var c, d := State(c0, acts, k - 1), State(c0, acts, k);
      StateNext(c0, acts, k - 1);
      StepHint(c, acts[k - 1]);
      var i, t: nat :| HintStep(c, d, i, t) && (Leads(c, i, t) || Leads(d, i, t) || i == -1);
      HintAt(c, d, i, t, p);
    }
  }

  /** Server i led term t in one of the first states of the run. */
  ghost predicate HasLed(c0: Cluster, acts: seq<Action>, k: nat, i: int, t: nat)
    requires Mesh(c0) && k <= |acts|
  {
    exists m: nat :: m <= k && Leads(State(c0, acts, m), i, t)
  }

  /** The hint of p names a server that has led a term up to p's, and p's own term unless p voted for itself. */
  ghost predicate HintOk(c0: Cluster, acts: seq<Action>, k: nat, p: int)
    requires Mesh(c0) && k <= |acts| && p in c0
  {
    var s := State(c0, acts, k)[p];
    s.leaderId == -1
    || exists t: nat :: t <= s.term && HasLed(c0, acts, k, s.leaderId, t) && (t < s.term ==> s.votedFor == Some(p))
  }

  /** In every run, admissible or not, leader_id is -1 or names a server that has led the holder's term, unless the
      holder has voted for itself in it; then it names a server that has led that term or an earlier one. */
  lemma {:induction false} HintHasLed(c0: Cluster, acts: seq<Action>, k: nat, p: int)
    requires Mesh(c0) && Fresh(c0) && k <= |acts| && p in c0
    ensures HintOk(c0, acts, k, p)
  {
    hide Next, State, Leads, HintStep, HasLed;
    if k == 0 {
      StartsClear(c0, acts, p);
    } else {
      HintHasLed(c0, acts, k - 1, p);
      var c, d := State(c0, acts, k - 1), State(c0, acts, k);
      StateNext(c0, acts, k - 1);
      StepHint(c, acts[k - 1]);
      var i, t: nat :| HintStep(c, d, i, t) && (Leads(c, i, t) || Leads(d, i, t) || i == -1);
      HintAt(c, d, i, t, p);
      if i != -1 {
        LedNow(c0, acts, k, i, t);
      }
      if c[p].leaderId != -1 {
        var u: nat :| u <= c[p].term && HasLed(c0, acts, k - 1, c[p].leaderId, u)
                      && (u < c[p].term ==> c[p].votedFor == Some(p));
        LedLater(c0, acts, k, c[p].leaderId, u);
      }
    }
  }

  lemma LedNow(c0: Cluster, acts: seq<Action>, k: nat, i: int, t: nat)
    requires Mesh(c0) && 0 < k <= |acts|
    requires Leads(State(c0, acts, k - 1), i, t) || Leads(State(c0, acts, k), i, t)
    ensures HasLed(c0, acts, k, i, t)
  {
    hide State, Leads;
  }

  lemma LedLater(c0: Cluster, acts: seq<Action>, k: nat, i: int, t: nat)
    requires Mesh(c0) && 0 < k <= |acts| && HasLed(c0, acts, k - 1, i, t)
    ensures HasLed(c0, acts, k, i, t)
  {
    hide State, Leads;
    var m: nat :| m <= k - 1 && Leads(State(c0, acts, m), i, t);
    assert m <= k;
  }

  lemma StartsClear(c0: Cluster, acts: seq<Action>, p: int)
    requires Mesh(c0) && Fresh(c0) && p in c0
    ensures State(c0, acts, 0)[p].leaderId == -1
  {
    assert c0[p] == FreshServer(c0[p].peers);
  }

  lemma HintAt(c: Cluster, d: Cluster, i: int, t: nat, p: int)
    requires HintStep(c, d, i, t) && p in c
    ensures p in d && HintMoves(p, c[p], d[p], i, t)
  {
  }
}
