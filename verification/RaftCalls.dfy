/** Every public call keeps the invariant. */
module RaftCalls {
  import opened RaftServer
  import opened RaftCluster
  import opened RaftInvariant
  import opened RaftSteps

  /** What the invariant says about one server. */
  lemma Parts(c: Cluster, h: History, i: int)
    requires Inv(c, h) && i in c
    ensures Mesh(c) && MeshAt(c, i) && ServerOk(h, i, c[i]) && CommitOk(c, h, c[i])
  {
  }

  lemma Overwrite(c: Cluster, p: int, a: Server, b: Server)
    requires p in c
    ensures c[p := a][p := b] == c[p := b]
  {
  }

  lemma KeepsRefl(c: Cluster, h: History, v: int)
    requires Inv(c, h) && v in c
    ensures Keeps(c, h, c, h) && c[v := c[v]] == c
  {
    forall i | i in c ensures ServerAdvances(c[i], c[i]) {
      assert CommitOk(c, h, c[i]);
    }
  }

  /** In a mesh the peers and the server itself are the whole cluster. */
  lemma MeshSize(c: Cluster, i: int)
    requires Mesh(c) && i in c
    ensures |c| == |c[i].peers| + 1
  {
    assert MeshAt(c, i);
    var ps := set p | p in c[i].peers;
    NoDupSize(c[i].peers);
    assert forall k :: k in c.Keys <==> k in ps || k == i;
    assert c.Keys == ps + {i};
    assert |c| == |c.Keys|;
  }

  lemma {:induction false} NoDupSize(ps: seq<int>)
    requires NoDup(ps)
    ensures |set p | p in ps| == |ps|
  {
    if ps != [] {
      var l := ps[|ps| - 1];
      var rest := ps[..|ps| - 1];
      NoDupSize(rest);
      assert (set p | p in ps) == (set p | p in rest) + {l};
    }
  }

  // ---- votes ----

  lemma VoteInert(h: History, p: int, s: Server, i: int, term: nat, lastIndex: int, lastTerm: nat)
    requires LeaderOk(h, p, s)
    ensures var s' := HandleVote(s, i, term, lastIndex, lastTerm).0;
            s.term <= s'.term && LeaderOk(h, p, s')
  {
    var s' := HandleVote(s, i, term, lastIndex, lastTerm).0;
    if s'.role == Leader {
      LeaderSame(h, p, s, s');
    }
  }

  /** One vote exchange. */
  lemma AskOk(c: Cluster, h: History, i: int, p: int)
    requires Inv(c, h) && i in c && p in c && i != p
    ensures var r := HandleVote(c[p], i, c[i].term, |c[i].log| - 1, LastTerm(c[i].log));
            Keeps(c, h, c[p := r.0], h) && (r.1 ==> Backs(c[p := r.0], i, p))
  {
    hide Inv, Advances;
    Parts(c, h, p);
    VoteInert(h, p, c[p], i, c[i].term, |c[i].log| - 1, LastTerm(c[i].log));
    Inert(c, h, p, HandleVote(c[p], i, c[i].term, |c[i].log| - 1, LastTerm(c[i].log)).0);
  }

  lemma BacksKept(c: Cluster, i: int, v: int, p: int, s: Server)
    requires i in c && p in c && Backs(c, i, v) && v != p && i != p
    ensures Backs(c[p := s], i, v)
  {
  }

  lemma OwnBacking(c: Cluster, i: int)
    requires i in c && c[i].role == Candidate && c[i].votedFor == Some(i)
    ensures Backs(c, i, i)
  {
  }

  /** Collecting votes only moves terms and votes; whoever granted a vote backs the candidate. */
  lemma {:induction false} CollectOk(c: Cluster, h: History, i: int, ps: seq<int>) returns (voters: set<int>)
    requires Inv(c, h) && i in c && c[i].role == Candidate && c[i].votedFor == Some(i)
    requires NoDup(ps) && i !in ps && forall p | p in ps :: p in c
    ensures var r := CollectVotes(c, i, ps);
            && Keeps(c, h, r.0, h) && r.0[i] == c[i] && |voters| == r.1
            && i in voters && (forall v | v in voters :: Backs(r.0, i, v) && (v == i || v in ps))
  {
    hide Inv, Advances, HandleVote, Backs, CanReach;
    if ps == [] {
      voters := {i};
      KeepsRefl(c, h, i);
      OwnBacking(c, i);
    } else {
      var p := ps[|ps| - 1];
      var rest := ps[..|ps| - 1];
      voters := CollectOk(c, h, i, rest);
      var c1 := CollectVotes(c, i, rest).0;
      if CanReach(c1, i, p) {
        var r := HandleVote(c1[p], i, c1[i].term, |c1[i].log| - 1, LastTerm(c1[i].log));
        AskOk(c1, h, i, p);
        KeepsTrans(c, h, c1, h, c1[p := r.0], h);
        assert p !in voters;
        forall v | v in voters ensures Backs(c1[p := r.0], i, v) {
          BacksKept(c1, i, v, p, r.0);
        }
        if r.1 {
          voters := voters + {p};
        }
      }
    }
  }

  /** A candidate backed by a majority takes office and sends its first heartbeats. */
  lemma TakeOffice(c: Cluster, h: History, i: int, voters: set<int>) returns (h': History)
    requires Inv(c, h) && Mesh(c) && Winning(c, h, i, voters)
    ensures var r := Heartbeats(c[i := Crowned(c[i], i)], i, c[i].peers);
            Keeps(c, h, r, h') && NewReigns(r, h, h')
  {
    hide Inv, Heartbeats;
    var h1 := Enthroned(h, i, c[i].term, c[i].log);
    Win(c, h, i, voters);
    var c2 := c[i := Crowned(c[i], i)];
    assert MeshAt(c, i);
    h' := HeartbeatsOk(c2, h1, i, c[i].peers);
    assert h'.reigns[c[i].term].leader == i;
    KeepsTrans(c, h, c2, h1, Heartbeats(c2, i, c[i].peers), h');
  }

  /** Step 4 of start_election, once the votes are in. */
  lemma DecideOk(c: Cluster, h: History, i: int, votes: nat, voters: set<int>) returns (h': History)
    requires Inv(c, h) && Mesh(c) && i in c && c[i].role == Candidate && 1 <= c[i].term
    requires i in voters && |voters| == votes && forall v | v in voters :: Backs(c, i, v)
    requires LogOk(h, c[i].log, c[i].term - 1)
    requires forall p | p in c[i].peers :: p in c
    requires Decide(c, votes, i).1 ==> c[i].term !in h.reigns
    ensures Keeps(c, h, Decide(c, votes, i).0, h') && NewReigns(Decide(c, votes, i).0, h, h')
  {
    hide Inv, Advances, Heartbeats, LogOk, Backs;
    h' := h;
    if Decide(c, votes, i).1 {
      VotersAreQuorum(c, h, i, voters);
      h' := TakeOffice(c, h, i, voters);
    } else {
      Inert(c, h, i, c[i].(role := Follower));
    }
  }

  lemma ElectionOk(c: Cluster, h: History, i: int) returns (h': History)
    requires Inv(c, h) && i in c && (StartElection(c, i).1 ==> c[i].term + 1 !in h.reigns)
    ensures Keeps(c, h, StartElection(c, i).0, h') && NewReigns(StartElection(c, i).0, h, h')
  {
    hide Inv, Advances, Decide, CollectVotes, LogOk, Backs, CommitOk;
    h' := h;
    KeepsRefl(c, h, i);
    if c[i].active {
      Parts(c, h, i);
      var c0 := c[i := Candidacy(c[i], i)];
      Inert(c, h, i, c0[i]);
      var voters := CollectOk(c0, h, i, c[i].peers);
      var (c1, votes) := CollectVotes(c0, i, c[i].peers);
      KeepsTrans(c, h, c0, h, c1, h);
      Parts(c1, h, i);
      h' := DecideOk(c1, h, i, votes, voters);
      KeepsTrans(c, h, c1, h, Decide(c1, votes, i).0, h');
    }
  }

  lemma VotersAreQuorum(c: Cluster, h: History, i: int, voters: set<int>)
    requires Inv(c, h) && i in c && IsMajority(|voters|, |c[i].peers| + 1)
    requires forall v | v in voters :: Backs(c, i, v)
    ensures Quorum(c, voters) && Mesh(c)
  {
    MeshSize(c, i);
    forall v | v in voters ensures v in c.Keys {
      assert Backs(c, i, v);
    }
  }

  // ---- AppendEntries ----

  lemma FollowInert(h: History, p: int, s: Server, i: int, term: nat)
    requires s.term <= term
    ensures LeaderOk(h, p, Follow(s, i, term))
  {
  }

  lemma LogOkPrefix(h: History, log: Log, bound: nat, n: nat)
    requires LogOk(h, log, bound) && n <= |log|
    ensures LogOk(h, log[..n], bound)
  {
    forall k | 0 <= k < n ensures EntryOk(h, log[..n], k, bound) {
      assert EntryOk(h, log, k, bound);
      assert log[..n][..k + 1] == log[..k + 1];
    }
  }

  /** A leader's AppendEntries keeps the invariant; if it is accepted the peer now has acknowledged
      the leader's whole log. */
  lemma AppendOk(c: Cluster, h: History, i: int, p: int, next: nat) returns (h': History)
    requires Inv(c, h) && i in c && p in c && i != p && c[i].role == Leader && next <= |c[i].log|
    ensures var r := Append(c, i, p, next);
            Keeps(c, h, c[p := r.0], h') && (r.1 ==> Ack(h', p, c[i].term) == |c[i].log|)
    ensures h'.reigns.Keys == h.reigns.Keys
  {
    hide Inv, Advances;
    h' := h;
    KeepsRefl(c, h, p);
    if c[p].active && c[p].term <= c[i].term {
      var s1 := Follow(c[p], i, c[i].term);
      var c1 := c[p := s1];
      Parts(c, h, p);
      Parts(c, h, i);
      FollowInert(h, p, c[p], i, c[i].term);
      Inert(c, h, p, s1);
      var log, L := s1.log, c[i].log;
      LogsMatch(h, log, c[p].term, L, c[i].term);
      if next > |log| {
      } else if next > 0 && log[next - 1].term != L[next - 1].term {
        Parts(c1, h, p);
        LogOkPrefix(h, log, s1.term, next - 1);
        Receive(c1, h, i, p, log[..next - 1], false);
        Overwrite(c, p, s1, s1.(log := log[..next - 1]));
        KeepsTrans(c, h, c1, h, c1[p := s1.(log := log[..next - 1])], h);
      } else {
        assert log[..next] == L[..next];
        h' := AcceptOk(c1, h, i, p, next);
        var s2 := LearnCommit(s1.(log := Merge(log, next, L[next..])), c[i].commitIndex);
        Overwrite(c, p, s1, s2);
        KeepsTrans(c, h, c1, h, c1[p := s2], h');
      }
    }
  }

  /** The accepting path: take over the entries, then the commit point. */
  lemma AcceptOk(c: Cluster, h: History, i: int, p: int, next: nat) returns (h': History)
    requires Inv(c, h) && i in c && p in c && i != p && c[i].role == Leader
    requires c[p].role != Leader && c[p].term == c[i].term
    requires next <= |c[p].log| && next <= |c[i].log| && c[p].log[..next] == c[i].log[..next]
    requires Matching(c[p].log, c[i].log)
    ensures var merged := c[p].(log := Merge(c[p].log, next, c[i].log[next..]));
            Keeps(c, h, c[p := LearnCommit(merged, c[i].commitIndex)], h')
    ensures Ack(h', p, c[i].term) == |c[i].log|
    ensures h'.reigns.Keys == h.reigns.Keys
  {
    hide Inv, Advances, Certified;
    var L := c[i].log;
    var r := Merge(c[p].log, next, L[next..]);
    MergeWithLeader(c[p].log, L, next);
    Parts(c, h, p);
    Parts(c, h, i);
    h' := Acknowledged(h, p, c[i].term, |L|);
    Receive(c, h, i, p, r, true);
    var c2 := c[p := c[p].(log := r)];
    var n := c[i].commitIndex;
    if n > c2[p].commitIndex {
      Parts(c2, h', i);
      assert r[..n + 1] == L[..n + 1];
      Learn(c2, h', p, n);
      Overwrite(c, p, c2[p], Apply(c2[p].(commitIndex := n)));
      KeepsTrans(c, h, c2, h', c2[p := Apply(c2[p].(commitIndex := n))], h');
    }
  }

  lemma {:induction false} HeartbeatsOk(c: Cluster, h: History, i: int, ps: seq<int>) returns (h': History)
    requires Inv(c, h) && i in c && c[i].role == Leader && i !in ps
    requires forall p | p in ps :: p in c && NextOf(c[i], p) == |c[i].log|
    ensures Keeps(c, h, Heartbeats(c, i, ps), h') && Heartbeats(c, i, ps)[i] == c[i]
    ensures h'.reigns.Keys == h.reigns.Keys
  {
    hide Inv, Advances;
    if ps == [] {
      h' := h;
      KeepsRefl(c, h, i);
    } else {
      var p := ps[|ps| - 1];
      var rest := ps[..|ps| - 1];
      h' := HeartbeatsOk(c, h, i, rest);
      var c1 := Heartbeats(c, i, rest);
      if CanReach(c1, i, p) {
        assert Suffix(c1[i].log, |c1[i].log|) == [];
        var h1 := h';
        h' := AppendOk(c1, h1, i, p, |c1[i].log|);
        KeepsTrans(c, h, c1, h1, Heartbeats(c, i, ps), h');
      }
    }
  }

  // ---- replicate_log ----

  /** Leader i only changed what it believes about its peers. */
  ghost predicate SameLeader(s: Server, s': Server) {
    s' == s.(nextIndex := s'.nextIndex, matchIndex := s'.matchIndex)
  }

  lemma BeliefsOk(c: Cluster, h: History, i: int, p: int, s': Server)
    requires Inv(c, h) && i in c && c[i].role == Leader && SameLeader(c[i], s')
    requires forall q | q != p :: NextOf(s', q) == NextOf(c[i], q) && MatchOf(s', q) == MatchOf(c[i], q)
    requires MatchOk(h, s', p)
    ensures Keeps(c, h, c[i := s'], h)
  {
    hide Inv, Advances;
    Parts(c, h, i);
    forall q | q in s'.peers ensures MatchOk(h, s', q) {
      assert MatchOk(h, c[i], q);
    }
    Inert(c, h, i, s');
  }

  lemma {:induction false} SendOk(c: Cluster, h: History, i: int, p: int) returns (h': History)
    requires Inv(c, h) && i in c && p in c && i != p && c[i].role == Leader
    ensures Keeps(c, h, SendTo(c, i, p), h') && SameLeader(c[i], SendTo(c, i, p)[i])
    ensures h'.reigns.Keys == h.reigns.Keys
    decreases NextOf(c[i], p)
  {
    hide Inv, Advances, Append, Certified, LogOk, CommitOk, MeshAt, Mesh, SendTo;
    Parts(c, h, i);
    SendUnfold(c, i, p);
    assert MatchOk(h, c[i], p);
    var next := NextOf(c[i], p);
    h' := AppendOk(c, h, i, p, next);
    var (s, ok) := Append(c, i, p, next);
    var c1 := c[p := s];
    Parts(c1, h', i);
    assert MatchOk(h', c1[i], p);
    if ok {
      if Suffix(c[i].log, next) != [] {
        var s' := Acked(c[i], p, |c[i].log|);
        BeliefsOk(c1, h', i, p, s');
        KeepsTrans(c, h, c1, h', c1[i := s'], h');
      }
    } else if next > 0 {
      var s' := Backed(c[i], p, next - 1);
      BeliefsOk(c1, h', i, p, s');
      var c2 := c1[i := s'];
      KeepsTrans(c, h, c1, h', c2, h');
      var h2 := h';
      h' := SendOk(c2, h2, i, p);
      KeepsTrans(c, h, c2, h2, SendTo(c2, i, p), h');
    }
  }

  lemma {:induction false} ReplicateOk(c: Cluster, h: History, i: int, ps: seq<int>) returns (h': History)
    requires Inv(c, h) && i in c && i !in ps && c[i].role == Leader && forall p | p in ps :: p in c
    ensures Keeps(c, h, Replicate(c, i, ps), h') && SameLeader(c[i], Replicate(c, i, ps)[i])
    ensures h'.reigns.Keys == h.reigns.Keys
  {
    hide Inv, Advances;
    if ps == [] {
      h' := h;
      KeepsRefl(c, h, i);
    } else {
      var p := ps[|ps| - 1];
      var rest := ps[..|ps| - 1];
      h' := ReplicateOk(c, h, i, rest);
      var c1 := Replicate(c, i, rest);
      if CanReach(c1, i, p) {
        var h1 := h';
        h' := SendOk(c1, h1, i, p);
        KeepsTrans(c, h, c1, h1, SendTo(c1, i, p), h');
      }
    }
  }

  lemma ReplicateLogOk(c: Cluster, h: History, i: int) returns (h': History)
    requires Inv(c, h) && i in c
    ensures Keeps(c, h, ReplicateLog(c, i), h') && SameLeader(c[i], ReplicateLog(c, i)[i])
    ensures h'.reigns.Keys == h.reigns.Keys
  {
    hide Inv, Advances;
    h' := h;
    KeepsRefl(c, h, i);
    Parts(c, h, i);
    if c[i].role == Leader {
      h' := ReplicateOk(c, h, i, c[i].peers);
    }
  }

  // ---- commit_entries ----

  /** The leader and the peers it counts for index n. */
  ghost function Counted(s: Server, i: int, ps: seq<int>, n: int): (r: set<int>)
    ensures forall v | v in r :: v == i || (v in ps && MatchOf(s, v) >= n)
  {
    if ps == [] then {i} else
    Counted(s, i, ps[..|ps| - 1], n) + (if MatchOf(s, ps[|ps| - 1]) >= n then {ps[|ps| - 1]} else {})
  }

  lemma {:induction false} CountIsSize(s: Server, i: int, ps: seq<int>, n: int)
    requires NoDup(ps) && i !in ps
    ensures |Counted(s, i, ps, n)| == AckCount(s, ps, n)
  {
    if ps != [] {
      CountIsSize(s, i, ps[..|ps| - 1], n);
      assert ps[|ps| - 1] !in Counted(s, i, ps[..|ps| - 1], n);
    }
  }

  /** The count in commit_entries stands for a majority that accepted the entry in this term. */
  lemma CommittableIsChosen(c: Cluster, h: History, i: int, n: nat)
    requires Inv(c, h) && i in c && c[i].role == Leader && n < |c[i].log| && Committable(c[i], n)
    ensures Chosen(c, h, c[i].term, n + 1)
  {
    var s := c[i];
    assert MeshAt(c, i) && ServerOk(h, i, s);
    MeshSize(c, i);
    CountIsSize(s, i, s.peers, n);
    forall v | v in Counted(s, i, s.peers, n) ensures v in Holders(c, h, s.term, n + 1) {
      if v != i {
        assert MatchOk(h, s, v);
      }
    }
    Within(Counted(s, i, s.peers, n), Holders(c, h, s.term, n + 1));
  }

  lemma {:induction false} ScanFinds(s: Server, n: int)
    requires s.commitIndex <= n < |s.log|
    ensures var r := CommitScan(s, n); r == s.commitIndex || Committable(s, r)
    decreases n - s.commitIndex
  {
    if n != s.commitIndex && !Committable(s, n) {
      ScanFinds(s, n - 1);
    }
  }

  lemma CommitKeeps(c: Cluster, h: History, i: int)
    requires Inv(c, h) && i in c
    ensures Keeps(c, h, c[i := Commit(c[i])], h)
  {
    hide Inv, Advances;
    KeepsRefl(c, h, i);
    var s := c[i];
    if s.role == Leader && s.commitIndex < |s.log| {
      var n := CommitScan(s, |s.log| - 1);
      ScanFinds(s, |s.log| - 1);
      if n != s.commitIndex {
        CommittableIsChosen(c, h, i, n);
        Parts(c, h, i);
        assert Prefix(h, s.term, n + 1) == s.log[..n + 1];
        Learn(c, h, i, n);
      }
    }
  }

  // ---- receive_client_message ----

  lemma ClientOk(c: Cluster, h: History, i: int, message: string) returns (h': History)
    requires Inv(c, h) && i in c
    ensures Keeps(c, h, ClientMessage(c, i, message).0, h')
    ensures h'.reigns.Keys == h.reigns.Keys
    ensures c[i].active && c[i].role == Leader ==>
      var s' := ClientMessage(c, i, message).0[i];
      s'.log == c[i].log + [LogEntry(c[i].term, message)] && s'.term == c[i].term
  {
    hide Inv, Advances, Certified, LogOk;
    h' := h;
    KeepsRefl(c, h, i);
    if c[i].active && c[i].role == Leader {
      Parts(c, h, i);
      var e := LogEntry(c[i].term, message);
      var c1 := c[i := c[i].(log := c[i].log + [e])];
      var h1 := Extended(h, i, c[i].term, e);
      Propose(c, h, i, message);
      h' := ReplicateLogOk(c1, h1, i);
      Parts(c1, h1, i);
      var c2 := ReplicateLog(c1, i);
      KeepsTrans(c, h, c1, h1, c2, h');
      CommitKeeps(c2, h', i);
      KeepsTrans(c, h, c2, h', c2[i := Commit(c2[i])], h');
    }
  }

  // ---- crash, partition and rejoin helpers ----

  /** A change to liveness, partitions or the leader hint only, or a step down. */
  lemma QuietOk(c: Cluster, h: History, i: int, s': Server)
    requires Inv(c, h) && i in c
    requires s' == c[i].(active := s'.active, role := s'.role, leaderId := s'.leaderId,
                         partitionedFrom := s'.partitionedFrom)
    requires s'.role == c[i].role || s'.role == Follower
    ensures Keeps(c, h, c[i := s'], h)
  {
    hide Inv, Advances;
    Parts(c, h, i);
    if s'.role == Leader {
      LeaderSame(h, i, c[i], s');
    }
    Inert(c, h, i, s');
  }

  lemma RecoverOk(c: Cluster, h: History, i: int)
    requires Inv(c, h) && i in c
    ensures Keeps(c, h, c[i := Recovered(c[i])], h)
  {
    hide Inv, Advances;
    Inert(c, h, i, Recovered(c[i]));
  }

  /** sync_from_leader may raise this server's commit point only over entries it shares with the
      leader; a leader of this server's term or a later one has just made sure of that. */
  ghost predicate SyncSafe(c: Cluster, i: int, l: int)
    requires i in c && l in c
  {
    !c[i].active || !c[l].active || c[l].role != Leader || c[i].term <= c[l].term || SharesCommit(c[i], c[l])
  }

  /** The entries that s would commit on l's word are l's entries. */
  ghost predicate SharesCommit(s: Server, l: Server) {
    var m := Min(l.commitIndex + 1, |s.log|);
    l.commitIndex > s.commitIndex ==> m <= |l.log| && s.log[..m] == l.log[..m]
  }

  /** A leader that sends to itself accepts its own log and steps down in its own term. */
  predicate SteppedDown(s: Server, s': Server, i: int) {
    s' == s.(role := Follower, leaderId := i, nextIndex := s'.nextIndex, matchIndex := s'.matchIndex)
  }

  lemma {:induction false} SendSelf(c: Cluster, i: int)
    requires i in c && c[i].active
    ensures var r := SendTo(c, i, i); r == c[i := r[i]] && SteppedDown(c[i], r[i], i)
    decreases NextOf(c[i], i)
  {
    hide HandleAppend;
    AppendSelf(c, i, NextOf(c[i], i));
    var (c1, ended) := SendOnce(c, i, i);
    assert c1 == c[i := c1[i]] && SteppedDown(c[i], c1[i], i);
    if !ended {
      SendSelf(c1, i);
    }
  }

  lemma SelfSyncOk(c: Cluster, h: History, i: int)
    requires Inv(c, h) && i in c
    ensures Keeps(c, h, SyncFromLeader(c, i, i).0, h)
  {
    hide Inv, Advances, SendTo;
    KeepsRefl(c, h, i);
    if c[i].active && c[i].role == Leader {
      SendSelf(c, i);
      var c1 := SendTo(c, i, i);
      Inert(c, h, i, c1[i]);
      assert c1[i := c1[i]] == c1;
    }
  }

  lemma SyncOk(c: Cluster, h: History, i: int, l: int) returns (h': History)
    requires Inv(c, h) && i in c && l in c && SyncSafe(c, i, l)
    ensures Keeps(c, h, SyncFromLeader(c, i, l).0, h')
    ensures h'.reigns.Keys == h.reigns.Keys
  {
    hide Inv, Advances, SendTo;
    h' := h;
    KeepsRefl(c, h, i);
    if i == l {
      SelfSyncOk(c, h, i);
    } else if c[i].active && c[l].active && c[l].role == Leader {
      h' := SendOk(c, h, l, i);
      var c1 := SendTo(c, l, i);
      if c[i].term <= c[l].term {
        SendRepairs(c, h, l, i);
        Parts(c1, h', l);
        var n := c1[l].commitIndex + 1;
        assert c1[i].log[..n] == c1[l].log[..n];
      } else {
        SendStale(c, l, i);
      }
      SyncCommit(c1, h', i, l);
      KeepsTrans(c, h, c1, h', c1[i := LearnCommit(c1[i], c1[l].commitIndex)], h');
    }
  }

  lemma CommitCertified(c: Cluster, h: History, l: int)
    requires Inv(c, h) && l in c && c[l].commitIndex >= 0
    ensures c[l].commitIndex < |c[l].log| && Certified(c, h, c[l].log[..c[l].commitIndex + 1], c[l].term)
  {
    assert CommitOk(c, h, c[l]);
  }

  /** Taking over the leader's commit point is sound over shared entries. */
  lemma SyncCommit(c: Cluster, h: History, i: int, l: int)
    requires Inv(c, h) && i in c && l in c && SharesCommit(c[i], c[l]) && c[l].term <= c[i].term
    ensures Keeps(c, h, c[i := LearnCommit(c[i], c[l].commitIndex)], h)
  {
    hide Inv, Advances, LogOk, ServerOk, MeshAt, Mesh;
    KeepsRefl(c, h, i);
    Parts(c, h, l);
    Parts(c, h, i);
    hide CommitOk, Apply;
    var n := c[l].commitIndex;
    var m := Min(n + 1, |c[i].log|);
    if n > c[i].commitIndex {
      CommitBound(c, h, l);
      CommitBound(c, h, i);
      CommitCertified(c, h, l);
      assert c[i].log[..m] == c[l].log[..n + 1][..m];
      CertifiedPrefix(c, h, c[l].log[..n + 1], c[l].term, c[i].log[..m], c[i].term);
      Learn(c, h, i, m - 1);
    }
  }

  /** A peer that is down or in a later term is not touched, and counts for nothing new. */
  lemma {:induction false} SendStale(c: Cluster, i: int, p: int)
    requires i in c && p in c && i != p && (!c[p].active || c[p].term > c[i].term)
    ensures var c' := SendTo(c, i, p);
            c' == c[i := c[i].(nextIndex := c'[i].nextIndex)] && NextOf(c'[i], p) == 0
    decreases NextOf(c[i], p)
  {
    hide Append, SendTo;
    var next := NextOf(c[i], p);
    SendUnfold(c, i, p);
    AppendRefused(c, i, p, next);
    assert c[p := c[p]] == c;
    if next > 0 {
      var c1 := c[i := Backed(c[i], p, next - 1)];
      SendStale(c1, i, p);
      var r := c1[i].(nextIndex := SendTo(c1, i, p)[i].nextIndex);
      assert c1[i := r] == c[i := r];
    } else {
      assert c == c[i := c[i]];
    }
  }

  lemma AppendRefused(c: Cluster, i: int, p: int, next: nat)
    requires i in c && p in c && (!c[p].active || c[p].term > c[i].term)
    ensures Append(c, i, p, next) == (c[p], false)
  {
  }

  /** Backtracking ends with the peer holding the leader's whole log, and in the leader's term. */
  lemma {:induction false} SendRepairs(c: Cluster, h: History, i: int, p: int)
    requires Inv(c, h) && i in c && p in c && i != p && c[i].role == Leader
    requires c[p].active && c[p].term <= c[i].term
    ensures var c' := SendTo(c, i, p);
            && c'[i].log == c[i].log <= c'[p].log && c'[p].term == c[i].term == c'[i].term
            && c'[p].commitIndex >= c[i].commitIndex
    decreases NextOf(c[i], p)
  {
    hide Inv, Advances, Append, Certified, LogOk, SendTo;
    Parts(c, h, i);
    SendUnfold(c, i, p);
    assert MatchOk(h, c[i], p);
    var next := NextOf(c[i], p);
    AppendEffect(c, h, i, p, next);
    var h1 := AppendOk(c, h, i, p, next);
    var (s, ok) := Append(c, i, p, next);
    if !ok && next > 0 {
      var c1 := c[p := s];
      var s' := Backed(c[i], p, next - 1);
      Parts(c1, h1, i);
      assert MatchOk(h1, c1[i], p);
      BeliefsOk(c1, h1, i, p, s');
      SendRepairs(c1[i := s'], h1, i, p);
    }
  }

  /** What one AppendEntries does to a live peer that is not ahead. */
  lemma AppendEffect(c: Cluster, h: History, i: int, p: int, next: nat)
    requires Inv(c, h) && i in c && p in c && next <= |c[i].log|
    requires c[p].active && c[p].term <= c[i].term
    ensures var (s, ok) := Append(c, i, p, next);
            && s.active && s.term == c[i].term && (ok ==> c[i].log <= s.log) && (next == 0 ==> ok)
            && (ok ==> s.commitIndex >= c[i].commitIndex)
            && (ok && c[i].commitIndex > c[p].commitIndex ==> s.commitIndex == c[i].commitIndex)
  {
    hide Inv;
    Parts(c, h, i);
    Parts(c, h, p);
    var log, L := c[p].log, c[i].log;
    LogsMatch(h, log, c[p].term, L, c[i].term);
    if next <= |log| && (next > 0 ==> log[next - 1].term == L[next - 1].term) {
      assert log[..next] == L[..next];
      MergeWithLeader(log, L, next);
    }
  }
}
