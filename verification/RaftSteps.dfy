/** What each elementary change to the cluster does to the invariant. A public call is a sequence
    of these changes. */
module RaftSteps {
  import opened RaftServer
  import opened RaftCluster
  import opened RaftInvariant

  /** The invariant still holds, and nothing committed or recorded is lost. */
  ghost predicate Keeps(c: Cluster, h: History, c': Cluster, h': History) {
    c'.Keys == c.Keys && Inv(c', h') && Advances(c, h, c', h')
  }

  lemma ServerTrans(s: Server, s1: Server, s2: Server)
    requires ServerAdvances(s, s1) && ServerAdvances(s1, s2)
    requires s.commitIndex < |s.log| && s1.commitIndex < |s1.log|
    ensures ServerAdvances(s, s2)
  {
    assert Committed(s) <= Committed(s1);
  }

  lemma CommitBound(c: Cluster, h: History, i: int)
    requires Inv(c, h) && i in c
    ensures c[i].commitIndex < |c[i].log|
  {
    assert CommitOk(c, h, c[i]);
  }

  lemma KeepsTrans(c: Cluster, h: History, c1: Cluster, h1: History, c2: Cluster, h2: History)
    requires Inv(c, h) && Keeps(c, h, c1, h1) && Keeps(c1, h1, c2, h2)
    ensures Keeps(c, h, c2, h2)
  {
    hide Inv;
    forall i | i in c ensures ServerAdvances(c[i], c2[i]) {
      CommitBound(c, h, i);
      CommitBound(c1, h1, i);
      ServerTrans(c[i], c1[i], c2[i]);
    }
    forall v, t ensures Ack(h, v, t) <= Ack(h2, v, t) {
      assert Ack(h, v, t) <= Ack(h1, v, t) <= Ack(h2, v, t);
    }
    forall v, t: nat | v in c && t < c[v].term ensures Ack(h2, v, t) == Ack(h, v, t) {
      assert ServerAdvances(c[v], c1[v]);
      assert Ack(h1, v, t) == Ack(h, v, t);
    }
  }

  lemma MeshKept(c: Cluster, v: int, s: Server)
    requires Mesh(c) && v in c && s.peers == c[v].peers
    ensures Mesh(c[v := s])
  {
    forall i | i in c ensures MeshAt(c[v := s], i) {
      assert MeshAt(c, i);
    }
  }

  /** A reign stays well formed when servers change and terms only rise. */
  lemma ReignsKept(c: Cluster, h: History, c': Cluster)
    requires ReignsOk(c, h) && c'.Keys == c.Keys
    requires forall v | v in c :: c[v].term <= c'[v].term
    ensures ReignsOk(c', h)
  {
    hide LogOk;
    assert |c| == |c.Keys| && |c'| == |c'.Keys|;
    forall t | t in h.reigns ensures ReignOk(c', h, t) {
      assert ReignOk(c, h, t);
      assert forall v | v in AtOrPast(c, t) :: v in AtOrPast(c', t);
      Within(AtOrPast(c, t), AtOrPast(c', t));
    }
  }

  // ---- changes that leave logs alone ----

  lemma ServersLocal(c: Cluster, h: History, v: int, s': Server)
    requires ServersOk(c, h) && v in c && c[v].term <= s'.term && s'.log == c[v].log
    requires LeaderOk(h, v, s')
    ensures ServersOk(c[v := s'], h)
  {
    assert ServerOk(h, v, c[v]);
    forall k | 0 <= k < |s'.log| ensures EntryOk(h, s'.log, k, s'.term) {
      assert EntryOk(h, c[v].log, k, c[v].term);
    }
    forall i | i in c ensures ServerOk(h, i, c[v := s'][i]) {
      assert ServerOk(h, i, c[i]);
    }
  }

  lemma AcksLocal(c: Cluster, h: History, v: int, s': Server)
    requires AcksOk(c, h) && v in c && c[v].term <= s'.term && s'.log == c[v].log
    ensures AcksOk(c[v := s'], h)
  {
    var c' := c[v := s'];
    forall w, t ensures AckOk(c', h, w, t) {
      assert AckOk(c, h, w, t);
    }
  }

  lemma CompleteLocal(c: Cluster, h: History, v: int, s': Server)
    requires Complete(c, h) && v in c && c[v].term <= s'.term && s'.log == c[v].log
    ensures Complete(c[v := s'], h)
  {
    var c' := c[v := s'];
    forall t: nat, k: nat | Choosable(c', h, t, k)
      ensures LaterLeadersHave(h, t, k) && HoldersHave(c', h, t, k)
    {
      ChoosableShrinks(c, h, c', h, t, k);
      assert LaterLeadersHave(h, t, k) && HoldersHave(c, h, t, k);
    }
  }

  lemma CommitsLocal(c: Cluster, h: History, v: int, s': Server)
    requires CommitsOk(c, h) && v in c && CommitOk(c[v := s'], h, s')
    ensures CommitsOk(c[v := s'], h)
  {
    var c' := c[v := s'];
    forall i | i in c' ensures CommitOk(c', h, c'[i]) {
      CommitStays(c, h, c', h, i);
    }
  }

  /** An unchanged server's commit record stays good. */
  lemma CommitStays(c: Cluster, h: History, c': Cluster, h': History, i: int)
    requires CommitsOk(c, h) && c'.Keys == c.Keys && HistoryGrows(h, h') && i in c
    ensures c'[i] == c[i] ==> CommitOk(c', h', c'[i])
  {
    assert CommitOk(c, h, c[i]);
    if c[i].commitIndex >= 0 {
      CertifiedStays(c, h, c', h', c[i].log[..c[i].commitIndex + 1], c[i].term, c[i].term);
    }
  }

  lemma Local(c: Cluster, h: History, v: int, s': Server)
    requires Inv(c, h) && v in c && c[v].term <= s'.term
    requires s'.peers == c[v].peers && s'.log == c[v].log
    requires c[v].commitIndex <= s'.commitIndex && c[v].applied <= s'.applied
    requires LeaderOk(h, v, s')
    requires CommitOk(c[v := s'], h, s')
    ensures Keeps(c, h, c[v := s'], h)
  {
    hide Mesh, ReignsOk, ServersOk, AcksOk, Complete, CommitsOk;
    MeshKept(c, v, s');
    ReignsKept(c, h, c[v := s']);
    ServersLocal(c, h, v, s');
    AcksLocal(c, h, v, s');
    CompleteLocal(c, h, v, s');
    CommitsLocal(c, h, v, s');
  }

  /** Votes, roles, terms, indexes and liveness may change as long as a leader's beliefs stay true. */
  lemma Inert(c: Cluster, h: History, v: int, s': Server)
    requires Inv(c, h) && v in c && c[v].term <= s'.term
    requires s'.peers == c[v].peers && s'.log == c[v].log
    requires s'.commitIndex == c[v].commitIndex && s'.lastApplied == c[v].lastApplied && s'.applied == c[v].applied
    requires LeaderOk(h, v, s')
    ensures Keeps(c, h, c[v := s'], h)
  {
    hide ReignsOk, ServersOk, AcksOk, Complete, Mesh, Advances, LeaderOk;
    InertCommit(c, h, v, s');
    Local(c, h, v, s');
  }

  lemma InertCommit(c: Cluster, h: History, v: int, s': Server)
    requires CommitsOk(c, h) && v in c && c[v].term <= s'.term && s'.log == c[v].log
    requires s'.commitIndex == c[v].commitIndex && s'.lastApplied == c[v].lastApplied && s'.applied == c[v].applied
    ensures CommitOk(c[v := s'], h, s')
  {
    hide Certified, HistoryGrows;
    assert CommitOk(c, h, c[v]);
    HistoryStays(h);
    if s'.commitIndex >= 0 {
      CertifiedStays(c, h, c[v := s'], h, s'.log[..s'.commitIndex + 1], c[v].term, s'.term);
    }
  }

  /** A server whose commit point rises within a certified prefix applies exactly the new entries. */
  lemma Learn(c: Cluster, h: History, v: int, n: Index)
    requires Inv(c, h) && v in c && c[v].commitIndex <= n < |c[v].log|
    requires n >= 0 ==> Certified(c, h, c[v].log[..n + 1], c[v].term)
    ensures Keeps(c, h, c[v := Apply(c[v].(commitIndex := n))], h)
  {
    var s' := Apply(c[v].(commitIndex := n));
    assert ServerOk(h, v, c[v]) && CommitOk(c, h, c[v]);
    LearnCommitOk(c, h, v, n);
    LeaderSame(h, v, c[v], s');
    Local(c, h, v, s');
  }

  lemma LearnCommitOk(c: Cluster, h: History, v: int, n: Index)
    requires v in c && CommitOk(c, h, c[v]) && c[v].commitIndex <= n < |c[v].log|
    requires n >= 0 ==> Certified(c, h, c[v].log[..n + 1], c[v].term)
    ensures var s' := Apply(c[v].(commitIndex := n));
            CommitOk(c[v := s'], h, s') && c[v].applied <= s'.applied
  {
    hide Certified, HistoryGrows, Apply;
    var s := c[v];
    AppliesUpTo(s, n);
    HistoryStays(h);
    if n >= 0 {
      CertifiedStays(c, h, c[v := Apply(s.(commitIndex := n))], h, s.log[..n + 1], s.term, s.term);
    }
  }

  lemma HistoryStays(h: History)
    ensures HistoryGrows(h, h)
  {
  }

  lemma AppliesUpTo(s: Server, n: Index)
    requires s.lastApplied == s.commitIndex <= n < |s.log| && s.applied == s.log[..s.commitIndex + 1]
    ensures var s' := Apply(s.(commitIndex := n));
            && s'.applied == s.log[..n + 1] && s.applied <= s'.applied && s'.lastApplied == n
            && s' == s.(commitIndex := n, lastApplied := n, applied := s'.applied)
  {
    assert s.log[..n + 1] == s.log[..s.commitIndex + 1] + s.log[s.commitIndex + 1..n + 1];
  }

  /** LeaderOk depends only on these fields. */
  lemma LeaderSame(h: History, v: int, s: Server, s': Server)
    requires LeaderOk(h, v, s)
    requires s'.role == s.role && s'.term == s.term && s'.log == s.log && s'.peers == s.peers
    requires s'.nextIndex == s.nextIndex && s'.matchIndex == s.matchIndex
    ensures LeaderOk(h, v, s')
  {
    if s.role == Leader {
      forall p | p in s'.peers ensures MatchOk(h, s', p) {
        assert MatchOk(h, s, p);
      }
    }
  }

  // ---- a follower's log changes ----

  /** log' keeps whatever log shared with the leader's log. */
  ghost predicate KeepsShared(log: Log, leaderLog: Log, log': Log) {
    forall k: nat | k <= |log| && k <= |leaderLog| && log[..k] == leaderLog[..k] ::
      k <= |log'| && log'[..k] == log[..k]
  }

  ghost function Acknowledged(h: History, v: int, t: nat, k: nat): History {
    h.(acks := h.acks[(v, t) := k])
  }

  /** A follower in the leader's term replaces its log; if it then holds the leader's whole log
      it has accepted all of it. */
  lemma Receive(c: Cluster, h: History, i: int, v: int, log': Log, accepted: bool)
    requires Inv(c, h) && i in c && v in c && i != v
    requires c[i].role == Leader && c[v].role != Leader && c[v].term == c[i].term
    requires LogOk(h, log', c[v].term) && KeepsShared(c[v].log, c[i].log, log')
    requires accepted ==> c[i].log <= log'
    ensures var h' := if accepted then Acknowledged(h, v, c[i].term, |c[i].log|) else h;
            Keeps(c, h, c[v := c[v].(log := log')], h')
  {
    var s' := c[v].(log := log');
    var c' := c[v := s'];
    var t := c[i].term;
    var L := c[i].log;
    var h' := if accepted then Acknowledged(h, v, t, |L|) else h;
    assert ServerOk(h, i, c[i]) && ServerOk(h, v, c[v]);
    assert AckOk(c, h, v, t);
    MeshKept(c, v, s');
    ReignsKept(c, h, c');
    ReceiveReigns(c, h, c', h');
    ReceiveServers(c, h, i, v, log', h');
    ReceiveAcks(c, h, i, v, log', h');
    ReceiveComplete(c, h, i, v, log', h');
    ReceiveCommits(c, h, i, v, log', h');
  }

  lemma ReceiveReigns(c: Cluster, h: History, c': Cluster, h': History)
    requires ReignsOk(c', h) && h'.reigns == h.reigns
    ensures ReignsOk(c', h')
  {
    forall t | t in h'.reigns ensures ReignOk(c', h', t) {
      assert ReignOk(c', h, t);
      LogOkSame(h, h', h.reigns[t].log, t);
    }
  }

  lemma LogOkSame(h: History, h': History, log: Log, bound: nat)
    requires h'.reigns == h.reigns && LogOk(h, log, bound)
    ensures LogOk(h', log, bound)
  {
    forall k | 0 <= k < |log| ensures EntryOk(h', log, k, bound) {
      assert EntryOk(h, log, k, bound);
    }
  }

  /** The facts about the history after a Receive that the parts below share. */
  ghost predicate Received(c: Cluster, h: History, i: int, v: int, log': Log, h': History) {
    && Inv(c, h) && i in c && v in c && i != v
    && c[i].role == Leader && c[v].role != Leader && c[v].term == c[i].term
    && c[i].term in h.reigns && h.reigns[c[i].term].log == c[i].log
    && LogOk(h, log', c[v].term) && KeepsShared(c[v].log, c[i].log, log')
    && (h' == h || (h' == Acknowledged(h, v, c[i].term, |c[i].log|) && c[i].log <= log'))
    && Ack(h, v, c[i].term) <= |c[i].log|
  }

  lemma ReceiveServers(c: Cluster, h: History, i: int, v: int, log': Log, h': History)
    requires Received(c, h, i, v, log', h')
    ensures ServersOk(c[v := c[v].(log := log')], h')
  {
    var c' := c[v := c[v].(log := log')];
    forall j | j in c' ensures ServerOk(h', j, c'[j]) {
      assert ServerOk(h, j, c[j]);
      LogOkSame(h, h', c'[j].log, c'[j].term);
      if c'[j].role == Leader {
        forall p | p in c'[j].peers ensures MatchOk(h', c'[j], p) {
          assert MatchOk(h, c[j], p);
        }
      }
    }
  }

  lemma ReceiveAcks(c: Cluster, h: History, i: int, v: int, log': Log, h': History)
    requires Received(c, h, i, v, log', h')
    ensures AcksOk(c[v := c[v].(log := log')], h')
  {
    hide Mesh, ReignsOk, ServersOk, Complete, CommitsOk, LogOk;
    var c' := c[v := c[v].(log := log')];
    forall w, u ensures AckOk(c', h', w, u) {
      assert AckOk(c, h, w, u);
    }
  }

  lemma ReceiveComplete(c: Cluster, h: History, i: int, v: int, log': Log, h': History)
    requires Received(c, h, i, v, log', h')
    ensures Complete(c[v := c[v].(log := log')], h')
  {
    var c' := c[v := c[v].(log := log')];
    forall u: nat, k: nat | Choosable(c', h', u, k)
      ensures LaterLeadersHave(h', u, k) && HoldersHave(c', h', u, k)
    {
      assert AckOk(c, h, v, u) && AckOk(c, h, v, c[i].term);
      ReceiveHolders(c, h, i, v, log', h', u, k);
    }
  }

  lemma ReceiveHolders(c: Cluster, h: History, i: int, v: int, log': Log, h': History, u: nat, k: nat)
    requires Complete(c, h) && i in c && v in c && i != v && AckOk(c, h, v, u) && AckOk(c, h, v, c[i].term)
    requires c[v].term == c[i].term && c[i].term in h.reigns && h.reigns[c[i].term].log == c[i].log
    requires KeepsShared(c[v].log, c[i].log, log')
    requires h' == h || (h' == Acknowledged(h, v, c[i].term, |c[i].log|) && c[i].log <= log')
    requires Choosable(c[v := c[v].(log := log')], h', u, k)
    ensures LaterLeadersHave(h', u, k) && HoldersHave(c[v := c[v].(log := log')], h', u, k)
  {
    hide LogOk;
    var c' := c[v := c[v].(log := log')];
    ChoosableShrinks(c, h, c', h', u, k);
    assert LaterLeadersHave(h, u, k) && HoldersHave(c, h, u, k);
    var p := Prefix(h, u, k);
    if v in Holders(c, h, u, k) {
      assert p <= c[v].log && p <= c[i].log;
      assert c[v].log[..|p|] == c[i].log[..|p|];
    }
  }

  lemma ReceiveCommits(c: Cluster, h: History, i: int, v: int, log': Log, h': History)
    requires Received(c, h, i, v, log', h')
    ensures CommitsOk(c[v := c[v].(log := log')], h')
    ensures Advances(c, h, c[v := c[v].(log := log')], h')
  {
    hide Certified, Complete, ServersOk, AcksOk, ReignsOk, Mesh, LogOk;
    var c' := c[v := c[v].(log := log')];
    forall j | j in c' ensures CommitOk(c', h', c'[j]) && ServerAdvances(c[j], c'[j]) {
      if j == v {
        ReceiveCommit(c, h, i, v, log', h');
      } else {
        CommitStays(c, h, c', h', j);
      }
    }
  }

  lemma ReceiveCommit(c: Cluster, h: History, i: int, v: int, log': Log, h': History)
    requires i in c && v in c && CommitOk(c, h, c[v]) && Complete(c, h) && HistoryGrows(h, h')
    requires c[v].term == c[i].term && c[i].term in h.reigns && h.reigns[c[i].term].log == c[i].log
    requires KeepsShared(c[v].log, c[i].log, log')
    ensures var s' := c[v].(log := log');
            CommitOk(c[v := s'], h', s') && ServerAdvances(c[v], s')
  {
    var k := c[v].commitIndex + 1;
    if k > 0 {
      var p := c[v].log[..k];
      CertifiedStays(c, h, c[v := c[v].(log := log')], h', p, c[v].term, c[v].term);
      CertifiedInReign(c, h, p, c[v].term, c[i].term);
      assert c[v].log[..k] == c[i].log[..k];
      assert log'[..k] == p;
    }
  }

  // ---- a leader appends ----

  ghost function Extended(h: History, i: int, t: nat, e: LogEntry): History
    requires t in h.reigns
  {
    var r := h.reigns[t];
    History(h.reigns[t := r.(log := r.log + [e])], h.acks[(i, t) := |r.log| + 1])
  }

  /** A leader adds an entry of its term to its own log. */
  lemma Propose(c: Cluster, h: History, i: int, message: string)
    requires Inv(c, h) && i in c && c[i].role == Leader && c[i].term in h.reigns
    ensures var e := LogEntry(c[i].term, message);
            Keeps(c, h, c[i := c[i].(log := c[i].log + [e])], Extended(h, i, c[i].term, e))
  {
    var t := c[i].term;
    var e := LogEntry(t, message);
    var s' := c[i].(log := c[i].log + [e]);
    var c' := c[i := s'];
    var h' := Extended(h, i, t, e);
    ProposingNow(c, h, i, e);
    hide LogOk, ReignsOk, ServersOk, AcksOk, Complete, CommitsOk, Mesh, Advances;
    MeshKept(c, i, s');
    ExtendedGrows(h, i, t, e);
    assert AcksClosed(c, h, h');
    ProposeReigns(c, h, i, e);
    ProposeServers(c, h, i, e);
    ProposeAcks(c, h, i, e);
    ProposeComplete(c, h, i, e);
    AllCommitsKept(c, h, i, s', h');
  }

  lemma ProposingNow(c: Cluster, h: History, i: int, e: LogEntry)
    requires Inv(c, h) && i in c && c[i].role == Leader && c[i].term in h.reigns && e.term == c[i].term
    ensures Proposing(c, h, i, e)
  {
    assert ServerOk(h, i, c[i]) && ReignOk(c, h, e.term) && AckOk(c, h, i, e.term);
  }

  lemma ExtendedGrows(h: History, i: int, t: nat, e: LogEntry)
    requires t in h.reigns && Ack(h, i, t) <= |h.reigns[t].log|
    ensures HistoryGrows(h, Extended(h, i, t, e))
  {
  }

  ghost predicate Proposing(c: Cluster, h: History, i: int, e: LogEntry) {
    && i in c && c[i].role == Leader && c[i].term in h.reigns && e.term == c[i].term >= 1
    && h.reigns[e.term].log == c[i].log && h.reigns[e.term].leader == i
    && Ack(h, i, e.term) == |c[i].log|
  }

  /** Logs that were good stay good: the reign they point into only grew. */
  lemma LogOkExtended(h: History, i: int, t: nat, e: LogEntry, log: Log, bound: nat)
    requires t in h.reigns && LogOk(h, log, bound)
    ensures LogOk(Extended(h, i, t, e), log, bound)
  {
    forall k | 0 <= k < |log| ensures EntryOk(Extended(h, i, t, e), log, k, bound) {
      assert EntryOk(h, log, k, bound);
    }
  }

  lemma LogOkOwn(h: History, i: int, t: nat, e: LogEntry, bound: nat)
    requires t in h.reigns && LogOk(h, h.reigns[t].log, bound) && e.term == t && 1 <= t <= bound
    ensures LogOk(Extended(h, i, t, e), h.reigns[t].log + [e], bound)
  {
    var log := h.reigns[t].log;
    LogOkExtended(h, i, t, e, log, bound);
    forall k | 0 <= k < |log| + 1 ensures EntryOk(Extended(h, i, t, e), log + [e], k, bound) {
      if k < |log| {
        assert EntryOk(Extended(h, i, t, e), log, k, bound);
        assert (log + [e])[..k + 1] == log[..k + 1];
      } else {
        assert (log + [e])[..k + 1] == log + [e];
      }
    }
  }

  lemma ProposeReigns(c: Cluster, h: History, i: int, e: LogEntry)
    requires ReignsOk(c, h) && Proposing(c, h, i, e)
    ensures ReignsOk(c[i := c[i].(log := c[i].log + [e])], Extended(h, i, e.term, e))
  {
    var c' := c[i := c[i].(log := c[i].log + [e])];
    var h' := Extended(h, i, e.term, e);
    ReignsKept(c, h, c');
    forall t | t in h'.reigns ensures ReignOk(c', h', t) {
      assert ReignOk(c', h, t);
      LogOkExtended(h, i, e.term, e, h.reigns[t].log, t);
      if t == e.term {
        LogOkOwn(h, i, t, e, t);
      }
    }
  }

  lemma ProposeServers(c: Cluster, h: History, i: int, e: LogEntry)
    requires ServersOk(c, h) && Proposing(c, h, i, e)
    ensures ServersOk(c[i := c[i].(log := c[i].log + [e])], Extended(h, i, e.term, e))
  {
    var c' := c[i := c[i].(log := c[i].log + [e])];
    var h' := Extended(h, i, e.term, e);
    forall j | j in c' ensures ServerOk(h', j, c'[j]) {
      assert ServerOk(h, j, c[j]);
      LogOkExtended(h, i, e.term, e, c[j].log, c[j].term);
      if j == i {
        LogOkOwn(h, i, e.term, e, e.term);
      }
      if c'[j].role == Leader {
        forall p | p in c'[j].peers ensures MatchOk(h', c'[j], p) {
          assert MatchOk(h, c[j], p);
        }
      }
    }
  }

  lemma ProposeAcks(c: Cluster, h: History, i: int, e: LogEntry)
    requires AcksOk(c, h) && Proposing(c, h, i, e)
    ensures AcksOk(c[i := c[i].(log := c[i].log + [e])], Extended(h, i, e.term, e))
  {
    var c' := c[i := c[i].(log := c[i].log + [e])];
    var h' := Extended(h, i, e.term, e);
    forall w, u ensures AckOk(c', h', w, u) {
      assert AckOk(c, h, w, u);
      if w != i && u == e.term && Ack(h, w, u) > 0 {
        assert h'.reigns[u].log[..Ack(h, w, u)] == h.reigns[u].log[..Ack(h, w, u)];
      }
    }
  }

  /** Nothing new can be chosen in a term that a later leader has already closed: the
      servers that have reached that leader's term will not accept it. */
  lemma ClosedTerm(c: Cluster, h: History, t: nat, k: nat, u: nat)
    requires ReignsOk(c, h) && t < u && u in h.reigns
    requires forall v | v in c && c[v].term > t :: Ack(h, v, t) < k
    ensures !Quorum(c, Supporters(c, h, t, k))
  {
    assert ReignOk(c, h, u);
    var q := AtOrPast(c, u);
    assert forall v | v in q :: v !in Supporters(c, h, t, k);
    BlocksExcludes(c, q, Supporters(c, h, t, k));
  }

  lemma ProposeComplete(c: Cluster, h: History, i: int, e: LogEntry)
    requires Complete(c, h) && ReignsOk(c, h) && ServersOk(c, h) && AcksOk(c, h) && Proposing(c, h, i, e)
    requires ReignsOk(c[i := c[i].(log := c[i].log + [e])], Extended(h, i, e.term, e))
    requires ServersOk(c[i := c[i].(log := c[i].log + [e])], Extended(h, i, e.term, e))
    ensures Complete(c[i := c[i].(log := c[i].log + [e])], Extended(h, i, e.term, e))
  {
    hide LogOk;
    var c' := c[i := c[i].(log := c[i].log + [e])];
    var h' := Extended(h, i, e.term, e);
    forall u: nat, k: nat | Choosable(c', h', u, k)
      ensures LaterLeadersHave(h', u, k) && HoldersHave(c', h', u, k)
    {
      if u == e.term && k == |c[i].log| + 1 {
        forall v | v in c ensures Ack(h, v, u) < k && (v != i ==> Ack(h', v, u) < k) {
          assert AckOk(c, h, v, u);
        }
        forall t | t in h'.reigns && u < t ensures false {
          ClosedTerm(c', h', u, k, t);
        }
        assert Prefix(h', u, k) == c'[i].log;
      } else {
        ProposeOld(c, h, i, e, u, k);
      }
    }
  }

  lemma ProposeOld(c: Cluster, h: History, i: int, e: LogEntry, u: nat, k: nat)
    requires Complete(c, h) && Proposing(c, h, i, e) && !(u == e.term && k == |c[i].log| + 1)
    requires Choosable(c[i := c[i].(log := c[i].log + [e])], Extended(h, i, e.term, e), u, k)
    ensures LaterLeadersHave(Extended(h, i, e.term, e), u, k)
    ensures HoldersHave(c[i := c[i].(log := c[i].log + [e])], Extended(h, i, e.term, e), u, k)
  {
    var c' := c[i := c[i].(log := c[i].log + [e])];
    var h' := Extended(h, i, e.term, e);
    assert Own(h, u, k) && Prefix(h, u, k) == Prefix(h', u, k);
    ChoosableShrinks(c, h, c', h', u, k);
    assert LaterLeadersHave(h, u, k) && HoldersHave(c, h, u, k);
  }

  /** A server that keeps its term and its committed entries keeps its commit record. */
  lemma CommitKept(c: Cluster, h: History, c': Cluster, h': History, s: Server, s': Server)
    requires CommitOk(c, h, s) && c'.Keys == c.Keys && HistoryGrows(h, h')
    requires s'.term == s.term && s'.commitIndex == s.commitIndex && s'.lastApplied == s.lastApplied
    requires s'.applied == s.applied && s.log <= s'.log && s'.peers == s.peers
    ensures CommitOk(c', h', s') && ServerAdvances(s, s')
  {
    var k := s.commitIndex + 1;
    assert s'.log[..k] == s.log[..k];
    if k > 0 {
      CertifiedStays(c, h, c', h', s.log[..k], s.term, s.term);
    }
  }

  lemma AllCommitsKept(c: Cluster, h: History, i: int, s': Server, h': History)
    requires CommitsOk(c, h) && i in c && HistoryGrows(h, h') && AcksClosed(c, h, h')
    requires s'.term == c[i].term && s'.commitIndex == c[i].commitIndex && s'.lastApplied == c[i].lastApplied
    requires s'.applied == c[i].applied && c[i].log <= s'.log && s'.peers == c[i].peers
    ensures CommitsOk(c[i := s'], h') && Advances(c, h, c[i := s'], h')
  {
    var c' := c[i := s'];
    forall j | j in c' ensures CommitOk(c', h', c'[j]) && ServerAdvances(c[j], c'[j]) {
      assert CommitOk(c, h, c[j]);
      CommitKept(c, h, c', h', c[j], c'[j]);
    }
  }

  // ---- a candidate wins ----

  ghost function Enthroned(h: History, i: int, t: nat, log: Log): History {
    History(h.reigns[t := Reign(i, log)], h.acks[(i, t) := |log|])
  }

  /** Voter v of candidate i: it is in i's term, voted for i, and its log is no more up to date. */
  ghost predicate Backs(c: Cluster, i: int, v: int)
    requires i in c
  {
    && v in c && c[v].term == c[i].term && c[v].votedFor == Some(i)
    && UpToDate(|c[i].log| - 1, LastTerm(c[i].log), c[v].log)
  }

  ghost predicate Winning(c: Cluster, h: History, i: int, voters: set<int>) {
    && i in voters && i in c && Quorum(c, voters)
    && c[i].role != Leader && c[i].term !in h.reigns && 1 <= c[i].term
    && LogOk(h, c[i].log, c[i].term - 1)
    && forall v | v in voters :: Backs(c, i, v)
  }

  lemma Win(c: Cluster, h: History, i: int, voters: set<int>)
    requires Inv(c, h) && Winning(c, h, i, voters)
    ensures Keeps(c, h, c[i := Crowned(c[i], i)], Enthroned(h, i, c[i].term, c[i].log))
  {
    hide Mesh, ReignsOk, ServersOk, Complete, CommitsOk, Advances;
    var s' := Crowned(c[i], i);
    var c' := c[i := s'];
    var h' := Enthroned(h, i, c[i].term, c[i].log);
    MeshKept(c, i, s');
    assert AckOk(c, h, i, c[i].term);
    WinReigns(c, h, i, voters);
    WinServers(c, h, i, voters);
    WinAcks(c, h, i, voters);
    WinComplete(c, h, i, voters);
    AllCommitsKept(c, h, i, s', h');
  }

  lemma LogOkEnthroned(h: History, i: int, t: nat, l: Log, log: Log, bound: nat)
    requires t !in h.reigns && LogOk(h, log, bound)
    ensures LogOk(Enthroned(h, i, t, l), log, bound)
  {
    forall k | 0 <= k < |log| ensures EntryOk(Enthroned(h, i, t, l), log, k, bound) {
      assert EntryOk(h, log, k, bound);
    }
  }

  lemma WinReigns(c: Cluster, h: History, i: int, voters: set<int>)
    requires ReignsOk(c, h) && Winning(c, h, i, voters)
    ensures ReignsOk(c[i := Crowned(c[i], i)], Enthroned(h, i, c[i].term, c[i].log))
  {
    var c' := c[i := Crowned(c[i], i)];
    var h' := Enthroned(h, i, c[i].term, c[i].log);
    ReignsKept(c, h, c');
    assert |c| == |c.Keys| && |c'| == |c'.Keys|;
    LogWider(h, c[i].log, c[i].term - 1, c[i].term);
    forall v | v in voters ensures v in AtOrPast(c', c[i].term) {
      assert Backs(c, i, v);
    }
    Within(voters, AtOrPast(c', c[i].term));
    forall t | t in h'.reigns ensures ReignOk(c', h', t) {
      if t == c[i].term {
        LogOkEnthroned(h, i, t, c[i].log, c[i].log, t);
      } else {
        assert ReignOk(c', h, t);
        LogOkEnthroned(h, i, c[i].term, c[i].log, h.reigns[t].log, t);
      }
    }
  }

  lemma LogWider(h: History, log: Log, b: nat, d: nat)
    requires LogOk(h, log, b) && b <= d
    ensures LogOk(h, log, d)
  {
    forall k | 0 <= k < |log| ensures EntryOk(h, log, k, d) {
      assert EntryOk(h, log, k, b);
    }
  }

  lemma WinServers(c: Cluster, h: History, i: int, voters: set<int>)
    requires ServersOk(c, h) && Winning(c, h, i, voters)
    ensures ServersOk(c[i := Crowned(c[i], i)], Enthroned(h, i, c[i].term, c[i].log))
  {
    var c' := c[i := Crowned(c[i], i)];
    var h' := Enthroned(h, i, c[i].term, c[i].log);
    forall j | j in c' ensures ServerOk(h', j, c'[j]) {
      assert ServerOk(h, j, c[j]);
      LogOkEnthroned(h, i, c[i].term, c[i].log, c[j].log, c[j].term);
      if j != i && c[j].role == Leader {
        forall p | p in c[j].peers ensures MatchOk(h', c[j], p) {
          assert MatchOk(h, c[j], p);
        }
      }
    }
  }

  lemma WinAcks(c: Cluster, h: History, i: int, voters: set<int>)
    requires AcksOk(c, h) && Winning(c, h, i, voters)
    ensures AcksOk(c[i := Crowned(c[i], i)], Enthroned(h, i, c[i].term, c[i].log))
  {
    var c' := c[i := Crowned(c[i], i)];
    var h' := Enthroned(h, i, c[i].term, c[i].log);
    forall w, u ensures AckOk(c', h', w, u) {
      assert AckOk(c, h, w, u);
    }
  }

  /** Section 5.4.3: a voter that holds a choosable prefix vouches for a candidate that has it. */
  lemma VoterVouches(c: Cluster, h: History, i: int, w: int, t: nat, k: nat)
    requires ReignsOk(c, h) && ServersOk(c, h) && i in c && Backs(c, i, w)
    requires Own(h, t, k) && LaterLeadersHave(h, t, k) && Prefix(h, t, k) <= c[w].log
    ensures Prefix(h, t, k) <= c[i].log
  {
    var p := Prefix(h, t, k);
    var L, W := c[i].log, c[w].log;
    assert ServerOk(h, i, c[i]) && ServerOk(h, w, c[w]);
    assert W[k - 1].term == t;
    TermsGrow(c, h, W, c[w].term, k - 1, |W| - 1);
    assert L != [];
    var u := LastTerm(L);
    assert EntryOk(h, L, |L| - 1, c[i].term) && EntryOk(h, W, |W| - 1, c[w].term);
    assert L[..|L|] == L && W[..|W|] == W;
    if u == LastTerm(W) {
      assert W <= L;
    } else {
      var R := h.reigns[u].log;
      assert p <= R && L <= R;
      if |L| < k {
        assert R[|L| - 1] == L[|L| - 1] && R[k - 1] == p[k - 1];
        assert ReignOk(c, h, u);
        TermsGrow(c, h, R, u, |L| - 1, k - 1);
      }
    }
  }

  lemma WinComplete(c: Cluster, h: History, i: int, voters: set<int>)
    requires Complete(c, h) && ReignsOk(c, h) && ServersOk(c, h) && AcksOk(c, h) && Winning(c, h, i, voters)
    ensures Complete(c[i := Crowned(c[i], i)], Enthroned(h, i, c[i].term, c[i].log))
  {
    var c' := c[i := Crowned(c[i], i)];
    var h' := Enthroned(h, i, c[i].term, c[i].log);
    forall j | 0 <= j < |c[i].log| ensures c[i].log[j].term < c[i].term {
      assert EntryOk(h, c[i].log, j, c[i].term - 1);
    }
    forall u: nat, k: nat | Choosable(c', h', u, k)
      ensures LaterLeadersHave(h', u, k) && HoldersHave(c', h', u, k)
    {
      WinOld(c, h, i, voters, u, k);
    }
  }

  lemma WinOld(c: Cluster, h: History, i: int, voters: set<int>, u: nat, k: nat)
    requires Complete(c, h) && ReignsOk(c, h) && ServersOk(c, h) && Winning(c, h, i, voters)
    requires forall j | 0 <= j < |c[i].log| :: c[i].log[j].term < c[i].term
    requires Choosable(c[i := Crowned(c[i], i)], Enthroned(h, i, c[i].term, c[i].log), u, k)
    ensures LaterLeadersHave(Enthroned(h, i, c[i].term, c[i].log), u, k)
    ensures HoldersHave(c[i := Crowned(c[i], i)], Enthroned(h, i, c[i].term, c[i].log), u, k)
  {
    hide LogOk, ServersOk;
    var c' := c[i := Crowned(c[i], i)];
    var h' := Enthroned(h, i, c[i].term, c[i].log);
    assert Own(h, u, k) && Prefix(h, u, k) == Prefix(h', u, k);
    ChoosableShrinks(c, h, c', h', u, k);
    assert LaterLeadersHave(h, u, k) && HoldersHave(c, h, u, k);
    if u < c[i].term {
      var w := QuorumsMeet(c, Supporters(c, h, u, k), voters);
      assert Backs(c, i, w);
      VoterVouches(c, h, i, w, u, k);
    }
  }
}
