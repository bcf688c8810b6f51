/** Safety over whole runs: sections 5.2, 5.3 and 5.4 of the Raft paper (Ongaro and Ousterhout,
    extended version) for this code. A run is any sequence of public calls from a fresh mesh. */
module RaftSafety {
  import opened RaftServer
  import opened RaftCluster
  import opened RaftInvariant
  import opened RaftSteps
  import opened RaftCalls

  /** The cluster after the first k calls. */
  function State(c0: Cluster, acts: seq<Action>, k: nat): (r: Cluster)
    requires Mesh(c0) && k <= |acts|
    ensures r.Keys == c0.Keys && Mesh(r)
  {
    Exec(c0, acts[..k])
  }

  /** Some server leads term t in one of the first k + 1 states. */
  ghost predicate Led(c0: Cluster, acts: seq<Action>, k: nat, t: nat)
    requires Mesh(c0) && k <= |acts|
  {
    exists m, j | 0 <= m <= k :: Leads(State(c0, acts, m), j, t)
  }

  /** The k-th call elects nobody to a term already led, and a sync is safe to believe. Every other
      call is unrestricted. */
  ghost predicate Allowed(c0: Cluster, acts: seq<Action>, k: nat)
    requires Mesh(c0) && k < |acts|
  {
    var c := State(c0, acts, k);
    Enabled(c, acts[k]) ==>
      match acts[k]
      case Elect(i) => StartElection(c, i).1 ==> !Led(c0, acts, k, c[i].term + 1)
      case Sync(i, l) => SyncSafe(c, i, l)
      case _ => true
  }

  /** No term is led twice, and syncs are safe. RaftElections.dfy shows which runs these are. */
  ghost predicate Admissible(c0: Cluster, acts: seq<Action>) {
    Mesh(c0) && Fresh(c0) && forall k | 0 <= k < |acts| :: Allowed(c0, acts, k)
  }

  // ---- from steps to runs ----

  lemma FreshOk(c: Cluster)
    requires Mesh(c) && Fresh(c)
    ensures Inv(c, History(map[], map[]))
  {
    var h := History(map[], map[]);
    forall i | i in c ensures ServerOk(h, i, c[i]) && CommitOk(c, h, c[i]) {
      assert c[i] == FreshServer(c[i].peers);
    }
  }

  ghost predicate StepSafe(c: Cluster, h: History, a: Action)
    requires Mesh(c)
  {
    Enabled(c, a) ==>
      && (a.Elect? && StartElection(c, a.i).1 ==> c[a.i].term + 1 !in h.reigns)
      && (a.Sync? ==> SyncSafe(c, a.i, a.leader))
  }

  lemma StepOk(c: Cluster, h: History, a: Action) returns (h': History)
    requires Mesh(c) && Inv(c, h) && StepSafe(c, h, a)
    ensures Keeps(c, h, Next(c, a), h') && NewReigns(Next(c, a), h, h')
  {
    hide Inv, Advances, StartElection, ClientMessage, ReplicateLog, Commit, SyncFromLeader, SyncSafe;
    h' := h;
    if !Enabled(c, a) {
      Still(c, h);
    } else {
      match a
      case Elect(i) => h' := ElectionOk(c, h, i);
      case Client(i, m) => h' := ClientOk(c, h, i, m);
      case Replicating(i) => h' := ReplicateLogOk(c, h, i);
      case Committing(i) => CommitKeeps(c, h, i);
      case Crash(i) => QuietOk(c, h, i, c[i].(active := false));
      case Recover(i) => RecoverOk(c, h, i);
      case RecoverDurable(i) => QuietOk(c, h, i, RecoveredDurably(c[i]));
      case Partition(i, ids) => QuietOk(c, h, i, c[i].(partitionedFrom := ids));
      case Heal(i) => QuietOk(c, h, i, c[i].(partitionedFrom := {}));
      case Sync(i, l) => h' := SyncOk(c, h, i, l);
    }
  }

  lemma Still(c: Cluster, h: History)
    requires Inv(c, h)
    ensures Keeps(c, h, c, h)
  {
    forall i | i in c ensures ServerAdvances(c[i], c[i]) {
      assert CommitOk(c, h, c[i]);
    }
  }

  /** Every reign in the history was seen in the run. */
  ghost predicate Witnessed(c0: Cluster, acts: seq<Action>, k: nat, h: History)
    requires Mesh(c0) && k <= |acts|
  {
    forall t | t in h.reigns :: exists m | 0 <= m <= k :: Leads(State(c0, acts, m), h.reigns[t].leader, t)
  }

  /** The histories along a run, one a state. */
  ghost predicate Chronicle(c0: Cluster, acts: seq<Action>, n: nat, hs: seq<History>)
    requires Mesh(c0) && n <= |acts|
  {
    && |hs| == n + 1
    && (forall k | 0 <= k <= n :: Inv(State(c0, acts, k), hs[k]))
    && (forall j, k | 0 <= j <= k <= n :: Keeps(State(c0, acts, j), hs[j], State(c0, acts, k), hs[k]))
  }

  lemma ChronicleStart(c0: Cluster, acts: seq<Action>, h: History)
    requires Mesh(c0) && Fresh(c0) && h == History(map[], map[])
    ensures Chronicle(c0, acts, 0, [h]) && Witnessed(c0, acts, 0, h)
  {
    hide Inv, Advances;
    FreshOk(c0);
    Still(c0, h);
    ExecNone(c0);
    assert acts[..0] == [];
  }

  lemma ChronicleNext(c0: Cluster, acts: seq<Action>, n: nat, hs: seq<History>, h': History)
    requires Mesh(c0) && n < |acts| && Chronicle(c0, acts, n, hs)
    requires Keeps(State(c0, acts, n), hs[n], State(c0, acts, n + 1), h')
    ensures Chronicle(c0, acts, n + 1, hs + [h'])
  {
    hide Inv, Advances, State;
    var d := State(c0, acts, n + 1);
    Still(d, h');
    forall j | 0 <= j <= n ensures Keeps(State(c0, acts, j), hs[j], d, h') {
      KeepsTrans(State(c0, acts, j), hs[j], State(c0, acts, n), hs[n], d, h');
    }
  }

  lemma {:induction false} RunOk(c0: Cluster, acts: seq<Action>, n: nat) returns (hs: seq<History>)
    requires Admissible(c0, acts) && n <= |acts|
    ensures Chronicle(c0, acts, n, hs) && Witnessed(c0, acts, n, hs[n])
  {
    hide Inv, Advances, Next, State, Fresh, Allowed, Witnessed, StepSafe, NewReigns;
    if n == 0 {
      var h := History(map[], map[]);
      ChronicleStart(c0, acts, h);
      hs := [h];
    } else {
      hs := RunOk(c0, acts, n - 1);
      var c, h, a := State(c0, acts, n - 1), hs[n - 1], acts[n - 1];
      StateNext(c0, acts, n - 1);
      CallAllowed(c0, acts, n - 1, h);
      var h' := StepOk(c, h, a);
      WitnessStep(c0, acts, n, h, h');
      ChronicleNext(c0, acts, n - 1, hs, h');
      hs := hs + [h'];
    }
  }

  lemma CallAllowed(c0: Cluster, acts: seq<Action>, k: nat, h: History)
    requires Mesh(c0) && k < |acts| && Allowed(c0, acts, k)
    requires Inv(State(c0, acts, k), h) && Witnessed(c0, acts, k, h)
    ensures StepSafe(State(c0, acts, k), h, acts[k])
  {
    hide Inv, Next, SyncSafe, State, StartElection;
    var c := State(c0, acts, k);
    if acts[k].Elect? && Enabled(c, acts[k]) && c[acts[k].i].term + 1 in h.reigns {
      var t := c[acts[k].i].term + 1;
      var m :| 0 <= m <= k && Leads(State(c0, acts, m), h.reigns[t].leader, t);
      assert Led(c0, acts, k, t);
    }
  }

  lemma WitnessStep(c0: Cluster, acts: seq<Action>, n: nat, h: History, h': History)
    requires Mesh(c0) && 1 <= n <= |acts| && Witnessed(c0, acts, n - 1, h)
    requires Advances(State(c0, acts, n - 1), h, State(c0, acts, n), h') && NewReigns(State(c0, acts, n), h, h')
    ensures Witnessed(c0, acts, n, h')
  {
    forall t | t in h'.reigns
      ensures exists m | 0 <= m <= n :: Leads(State(c0, acts, m), h'.reigns[t].leader, t)
    {
      if t in h.reigns {
        var m :| 0 <= m <= n - 1 && Leads(State(c0, acts, m), h.reigns[t].leader, t);
      } else {
        assert Leads(State(c0, acts, n), h'.reigns[t].leader, t);
      }
    }
  }

  // ---- section 5.2 ----

  /** What the other theorems rest on: at most one server ever leads a term. */
  lemma OneLeaderPerTerm(c0: Cluster, acts: seq<Action>, a: nat, b: nat, i: int, j: int, t: nat)
    requires Admissible(c0, acts) && a <= |acts| && b <= |acts|
    requires Leads(State(c0, acts, a), i, t) && Leads(State(c0, acts, b), j, t)
    ensures i == j
  {
    hide Inv, Advances, Next, State;
    var hs := RunOk(c0, acts, |acts|);
    LeaderRecorded(c0, acts, hs, a, i, t);
    LeaderRecorded(c0, acts, hs, b, j, t);
  }

  /** Whoever leads a term is its leader in the history at the end of the run. */
  lemma LeaderRecorded(c0: Cluster, acts: seq<Action>, hs: seq<History>, a: nat, i: int, t: nat)
    requires Mesh(c0) && Chronicle(c0, acts, |acts|, hs) && a <= |acts| && Leads(State(c0, acts, a), i, t)
    ensures var h := hs[|acts|]; t in h.reigns && h.reigns[t].leader == i
  {
    hide Inv, Next, State;
    Parts(State(c0, acts, a), hs[a], i);
    assert Keeps(State(c0, acts, a), hs[a], State(c0, acts, |acts|), hs[|acts|]);
  }

  // ---- section 5.3 ----

  lemma LogOkLater(h: History, h': History, log: Log, bound: nat)
    requires HistoryGrows(h, h') && LogOk(h, log, bound)
    ensures LogOk(h', log, bound)
  {
    forall k | 0 <= k < |log| ensures EntryOk(h', log, k, bound) {
      assert EntryOk(h, log, k, bound);
    }
  }

  lemma LogRecorded(c0: Cluster, acts: seq<Action>, hs: seq<History>, a: nat, i: int)
    requires Mesh(c0) && Chronicle(c0, acts, |acts|, hs) && a <= |acts| && i in c0
    ensures LogOk(hs[|acts|], State(c0, acts, a)[i].log, State(c0, acts, a)[i].term)
  {
    hide Inv, Next, State;
    Parts(State(c0, acts, a), hs[a], i);
    assert Keeps(State(c0, acts, a), hs[a], State(c0, acts, |acts|), hs[|acts|]);
    LogOkLater(hs[a], hs[|acts|], State(c0, acts, a)[i].log, State(c0, acts, a)[i].term);
  }

  /** Log Matching, between any two logs of a run, even at different times: equal terms at an index
      mean equal logs through that index, messages included. */
  lemma LogMatching(c0: Cluster, acts: seq<Action>, a: nat, b: nat, i: int, j: int)
    requires Admissible(c0, acts) && a <= |acts| && b <= |acts| && i in c0 && j in c0
    ensures Matching(State(c0, acts, a)[i].log, State(c0, acts, b)[j].log)
  {
    hide Inv, Advances, Next, State, LogOk;
    var hs := RunOk(c0, acts, |acts|);
    LogRecorded(c0, acts, hs, a, i);
    LogRecorded(c0, acts, hs, b, j);
    LogsMatch(hs[|acts|], State(c0, acts, a)[i].log, State(c0, acts, a)[i].term,
              State(c0, acts, b)[j].log, State(c0, acts, b)[j].term);
  }

  // ---- section 5.4 ----

  lemma CommitRecorded(c0: Cluster, acts: seq<Action>, hs: seq<History>, a: nat, b: nat, i: int)
    requires Mesh(c0) && Chronicle(c0, acts, |acts|, hs) && a <= b <= |acts| && i in c0
    ensures var s := State(c0, acts, a)[i];
            && s.lastApplied == s.commitIndex < |s.log| && s.applied == s.log[..s.lastApplied + 1]
            && (s.commitIndex >= 0 ==> Certified(State(c0, acts, b), hs[b], s.applied, s.term))
  {
    hide Inv, Next, State;
    var c, c' := State(c0, acts, a), State(c0, acts, b);
    Parts(c, hs[a], i);
    assert Keeps(c, hs[a], c', hs[b]);
    if c[i].commitIndex >= 0 {
      CertifiedStays(c, hs[a], c', hs[b], c[i].applied, c[i].term, c[i].term);
    }
  }

  /** Leader Completeness: what any server knows committed, at any time, is in the log of every server
      that leads a later term, whether it leads before, at or after that time; and in the log of every
      server that leads the same term from then on. */
  lemma LeaderCompleteness(c0: Cluster, acts: seq<Action>, a: nat, b: nat, i: int, j: int, t: nat)
    requires Admissible(c0, acts) && a <= |acts| && b <= |acts| && i in c0
    requires Leads(State(c0, acts, b), j, t)
    requires State(c0, acts, a)[i].term < t || (State(c0, acts, a)[i].term == t && a <= b)
    ensures var s := State(c0, acts, a)[i];
            s.commitIndex < |s.log| && s.log[..s.commitIndex + 1] <= State(c0, acts, b)[j].log
  {
    hide Inv, Advances, Next, State, Certified, Keeps;
    var hs := RunOk(c0, acts, |acts|);
    var s := State(c0, acts, a)[i];
    CommitRecorded(c0, acts, hs, a, if a <= b then b else a, i);
    if s.commitIndex >= 0 {
      Parts(State(c0, acts, b), hs[b], j);
      if a <= b {
        CertifiedLed(State(c0, acts, b), hs[b], s.applied, s.term, t);
      } else {
        CertifiedEarlier(State(c0, acts, b), hs[b], State(c0, acts, a), hs[a], s.applied, s.term, t);
      }
    }
  }

  /** A term already led at c cannot miss what is certified later, at d, for an earlier term: among
      those who have reached the led term is one whose acceptance was final. */
  lemma CertifiedEarlier(c: Cluster, h: History, d: Cluster, g: History, p: Log, bound: nat, t: nat)
    requires Inv(c, h) && Keeps(c, h, d, g) && Certified(d, g, p, bound) && bound < t && t in h.reigns
    ensures p <= h.reigns[t].log
  {
    hide LogOk, HoldersHave, Complete, CommitsOk, ServersOk, Mesh;
    var u: nat, k: nat :| u <= bound && Chosen(d, g, u, k) && p <= Prefix(g, u, k);
    assert ReignOk(c, h, t);
    assert |c| == |c.Keys| && |d| == |d.Keys|;
    var holders := Holders(d, g, u, k);
    var w := BlocksMeets(c, AtOrPast(c, t), holders);
    assert Ack(g, w, u) == Ack(h, w, u);
    assert AckOk(c, h, w, u);
    assert Own(h, u, k) && Prefix(h, u, k) == Prefix(g, u, k);
    Within(holders, Supporters(c, h, u, k));
    ChoosableLater(c, h, u, k, t);
  }

  lemma ChoosableLater(c: Cluster, h: History, u: nat, k: nat, t: nat)
    requires Inv(c, h) && Choosable(c, h, u, k) && u < t && t in h.reigns
    ensures Prefix(h, u, k) <= h.reigns[t].log
  {
    assert LaterLeadersHave(h, u, k);
  }

  lemma CertifiedLed(c: Cluster, h: History, p: Log, bound: nat, t: nat)
    requires Inv(c, h) && Certified(c, h, p, bound) && bound <= t && t in h.reigns
    ensures p <= h.reigns[t].log
  {
    CertifiedInReign(c, h, p, bound, t);
  }

  lemma CertifiedComparable(c: Cluster, h: History, p: Log, b: nat, q: Log, d: nat)
    requires Inv(c, h) && Certified(c, h, p, b) && Certified(c, h, q, d)
    ensures p <= q || q <= p
  {
    CertifiedAgree(c, h, p, b, q, d);
  }

  /** State Machine Safety: each server has handed over exactly its log through lastApplied, and the
      sequences handed over by any two servers, at any two times, extend one another. */
  lemma StateMachineSafety(c0: Cluster, acts: seq<Action>, a: nat, b: nat, i: int, j: int)
    requires Admissible(c0, acts) && a <= |acts| && b <= |acts| && i in c0 && j in c0
    ensures var s, u := State(c0, acts, a)[i], State(c0, acts, b)[j];
            && s.lastApplied == s.commitIndex < |s.log| && s.applied == s.log[..s.lastApplied + 1]
            && (s.applied <= u.applied || u.applied <= s.applied)
  {
    hide Inv, Advances, Next, State, Certified;
    var hs := RunOk(c0, acts, |acts|);
    CommitRecorded(c0, acts, hs, a, |acts|, i);
    CommitRecorded(c0, acts, hs, b, |acts|, j);
    var s, u := State(c0, acts, a)[i], State(c0, acts, b)[j];
    if s.commitIndex >= 0 && u.commitIndex >= 0 {
      CertifiedComparable(State(c0, acts, |acts|), hs[|acts|], s.applied, s.term, u.applied, u.term);
    }
  }

  /** Nothing committed is ever lost: terms and commit points only rise, the committed part of a log
      survives every truncation, and nothing handed over is taken back. */
  lemma CommittedForever(c0: Cluster, acts: seq<Action>, a: nat, b: nat, i: int)
    requires Admissible(c0, acts) && a <= b <= |acts| && i in c0
    ensures var s, u := State(c0, acts, a)[i], State(c0, acts, b)[i];
            && s.term <= u.term && s.commitIndex <= u.commitIndex < |u.log| && s.commitIndex < |s.log|
            && s.log[..s.commitIndex + 1] == u.log[..s.commitIndex + 1]
            && s.applied <= u.applied
  {
    hide Inv, Advances, Next, State;
    var hs := RunOk(c0, acts, |acts|);
    var c, c' := State(c0, acts, a), State(c0, acts, b);
    assert Keeps(c, hs[a], c', hs[b]);
    OneAdvances(c, hs[a], c', hs[b], i);
  }

  lemma OneAdvances(c: Cluster, h: History, c': Cluster, h': History, i: int)
    requires Inv(c, h) && Keeps(c, h, c', h') && i in c
    ensures var s, u := c[i], c'[i];
            && s.term <= u.term && s.commitIndex <= u.commitIndex < |u.log| && s.commitIndex < |s.log|
            && s.log[..s.commitIndex + 1] == u.log[..s.commitIndex + 1]
            && s.applied <= u.applied
  {
    hide Inv;
    CommitBound(c, h, i);
    CommitBound(c', h', i);
    assert ServerAdvances(c[i], c'[i]);
  }

  // ---- acknowledged writes ----

  /** Servers whose log starts with `log`. */
  ghost function HoldersOf(c: Cluster, log: Log): set<int> {
    set v | v in c && log <= c[v].log
  }

  lemma CommittedOnMajority(c: Cluster, h: History, p: Log, bound: nat)
    requires Inv(c, h) && Certified(c, h, p, bound)
    ensures Quorum(c, HoldersOf(c, p))
  {
    var t: nat, k: nat :| t <= bound && Chosen(c, h, t, k) && p <= Prefix(h, t, k);
    ChosenIsChoosable(c, h, t, k);
    assert HoldersHave(c, h, t, k);
    Within(Holders(c, h, t, k), HoldersOf(c, p));
  }

  /** Durable acknowledgement: when receive_client_message returns True, a majority holds the leader's
      log up to and including the new entry, and every later leader does, whatever happens next. */
  lemma DurableAcknowledgement(c0: Cluster, acts: seq<Action>, k: nat)
    requires Admissible(c0, acts) && k < |acts| && acts[k].Client? && acts[k].i in c0
    requires ClientMessage(State(c0, acts, k), acts[k].i, acts[k].message).1
    ensures var s := State(c0, acts, k)[acts[k].i];
            var log := s.log + [LogEntry(s.term, acts[k].message)];
            && Quorum(State(c0, acts, k + 1), HoldersOf(State(c0, acts, k + 1), log))
            && forall b: nat, j, t: nat | k < b <= |acts| && s.term <= t && Leads(State(c0, acts, b), j, t) ::
                 log <= State(c0, acts, b)[j].log
  {
    hide Inv, Advances, State, Certified;
    var hs := RunOk(c0, acts, |acts|);
    var c, i := State(c0, acts, k), acts[k].i;
    StateNext(c0, acts, k);
    var h' := ClientOk(c, hs[k], i, acts[k].message);
    var c' := State(c0, acts, k + 1);
    CommitRecorded(c0, acts, hs, k + 1, k + 1, i);
    CommittedOnMajority(c', hs[k + 1], c'[i].applied, c'[i].term);
    assert c'[i].applied == c'[i].log;
    forall b: nat, j, t: nat | k < b <= |acts| && c[i].term <= t && Leads(State(c0, acts, b), j, t)
      ensures c'[i].log <= State(c0, acts, b)[j].log
    {
      LeaderCompleteness(c0, acts, k + 1, b, i, j, t);
    }
  }

  lemma ExecNone(c: Cluster)
    requires Mesh(c)
    ensures Exec(c, []) == c
  {
  }

  lemma {:induction false} ExecJoin(c: Cluster, a: seq<Action>, b: seq<Action>)
    requires Mesh(c)
    ensures Exec(c, a + b) == Exec(Exec(c, a), b)
  {
    hide Exec;
    if b == [] {
      assert a + b == a;
      ExecNone(Exec(c, a));
    } else {
      var rest, last := b[..|b| - 1], b[|b| - 1];
      ExecJoin(c, a, rest);
      assert a + b == (a + rest) + [last] && b == rest + [last];
      ExecSnoc(c, a + rest, last);
      ExecSnoc(Exec(c, a), rest, last);
    }
  }

  lemma ExecSnoc(c: Cluster, acts: seq<Action>, a: Action)
    requires Mesh(c)
    ensures Exec(c, acts + [a]) == Next(Exec(c, acts), a)
  {
    hide Next;
    assert (acts + [a])[..|acts|] == acts;
  }

  lemma ExecOne(c: Cluster, a: Action)
    requires Mesh(c)
    ensures Exec(c, [a]) == Next(c, a)
  {
    hide Exec, Next;
    ExecNone(c);
    ExecSnoc(c, [], a);
    assert [] + [a] == [a];
  }

  lemma StateNext(c0: Cluster, acts: seq<Action>, k: nat)
    requires Mesh(c0) && k < |acts|
    ensures State(c0, acts, k + 1) == Next(State(c0, acts, k), acts[k])
  {
    assert acts[..k + 1][..k] == acts[..k];
  }

  // ---- what a leader knows about its peers ----

  /** A leader's match index is sound even when the leader is stale: the peer has been in the leader's
      term, and while it still is its log agrees with the leader's through that index. */
  lemma MatchIndexSound(c0: Cluster, acts: seq<Action>, k: nat, i: int, p: int)
    requires Admissible(c0, acts) && k <= |acts| && i in c0
    requires State(c0, acts, k)[i].role == Leader && p in State(c0, acts, k)[i].peers
    requires MatchOf(State(c0, acts, k)[i], p) >= 0
    ensures var c := State(c0, acts, k); var m := MatchOf(c[i], p) + 1;
            && p in c && c[i].term <= c[p].term && m <= |c[i].log|
            && (c[p].term == c[i].term ==> c[i].log[..m] <= c[p].log)
  {
    hide Inv, Advances, Next, State;
    var hs := RunOk(c0, acts, k);
    MatchMeaning(State(c0, acts, k), hs[k], i, p);
  }

  lemma MatchMeaning(c: Cluster, h: History, i: int, p: int)
    requires Inv(c, h) && i in c && c[i].role == Leader && p in c[i].peers && MatchOf(c[i], p) >= 0
    ensures var m := MatchOf(c[i], p) + 1;
            && p in c && c[i].term <= c[p].term && m <= |c[i].log|
            && (c[p].term == c[i].term ==> c[i].log[..m] <= c[p].log)
  {
    assert ServerOk(h, i, c[i]) && MatchOk(h, c[i], p) && AckOk(c, h, p, c[i].term);
  }

  /** The append of i to p from `next` on cuts no committed entry of p. The commit point it passes on
      never exceeds the last entry it covers; if it is accepted, p commits no more than that, and only
      entries equal to i's. */
  ghost predicate RespectsCommits(c: Cluster, i: int, p: int, next: nat)
    requires i in c && p in c
  {
    var (s, ok) := Append(c, i, p, next);
    && c[p].commitIndex < |c[p].log| && c[p].log[..c[p].commitIndex + 1] <= s.log
    && c[i].commitIndex <= next - 1 + |Suffix(c[i].log, next)| && c[i].commitIndex < |c[i].log|
    && (ok && c[i].commitIndex > c[p].commitIndex ==>
          s.commitIndex == c[i].commitIndex && s.log[..s.commitIndex + 1] == c[i].log[..s.commitIndex + 1])
  }

  /** An AppendEntries from a leader never cuts a peer's committed entries. If it is accepted, the
      commit point it passes on never exceeds the last entry it covers, so the cap by the peer's log
      length only commits entries equal to the leader's. */
  lemma AppendRespectsCommits(c0: Cluster, acts: seq<Action>, k: nat, i: int, p: int, next: nat)
    requires Admissible(c0, acts) && k <= |acts| && i in c0 && p in c0 && i != p
    requires State(c0, acts, k)[i].role == Leader && next <= |State(c0, acts, k)[i].log|
    ensures RespectsCommits(State(c0, acts, k), i, p, next)
  {
    hide Inv, Advances, Next, State, RespectsCommits;
    var hs := RunOk(c0, acts, k);
    AppendRespects(State(c0, acts, k), hs[k], i, p, next);
  }

  lemma AppendRespects(c: Cluster, h: History, i: int, p: int, next: nat)
    requires Inv(c, h) && i in c && p in c && i != p && c[i].role == Leader && next <= |c[i].log|
    ensures RespectsCommits(c, i, p, next)
  {
    hide Inv, Advances, Append, ServerOk, Certified;
    var h' := AppendOk(c, h, i, p, next);
    var (s, ok) := Append(c, i, p, next);
    CommitBound(c, h, i);
    OneAdvances(c, h, c[p := s], h', p);
    if c[p].active && c[p].term <= c[i].term {
      AppendEffect(c, h, i, p, next);
    } else {
      AppendRefused(c, i, p, next);
    }
  }

  /** Backtracking ends, and repairs the peer: a live peer in no later term ends up with the leader's
      whole log at the front of its own; any other peer, and what the leader counts for it, is left
      alone. */
  lemma BacktrackingRepairs(c0: Cluster, acts: seq<Action>, k: nat, i: int, p: int)
    requires Admissible(c0, acts) && k <= |acts| && i in c0 && p in c0 && i != p
    requires State(c0, acts, k)[i].role == Leader
    ensures var c := State(c0, acts, k); var c' := SendTo(c, i, p);
            if c[p].active && c[p].term <= c[i].term
            then c[i].log <= c'[p].log && c'[p].term == c[i].term && c'[i].log == c[i].log
            else c'[p] == c[p] && c'[i].matchIndex == c[i].matchIndex
  {
    hide Inv, Advances, Next, State;
    var hs := RunOk(c0, acts, k);
    var c := State(c0, acts, k);
    if c[p].active && c[p].term <= c[i].term {
      SendRepairs(c, hs[k], i, p);
    } else {
      SendStale(c, i, p);
    }
  }
}
