/** What a crash takes away until recover(), and what recover() gives back. */
module RaftOutages {
  import opened RaftServer
  import opened RaftCluster
  import opened RaftCalls
  import opened RaftSafety
  import opened RaftProgress
  import opened RaftElections

  // ---- down ----

  /** The server is down and, but for its partitions and for what its own replicate_log and commit_entries move, as
      it was. */
  predicate Asleep(s: Server, u: Server) {
    && !u.active
    && u == s.(active := false, partitionedFrom := u.partitionedFrom, nextIndex := u.nextIndex,
               matchIndex := u.matchIndex, commitIndex := u.commitIndex, lastApplied := u.lastApplied,
               applied := u.applied)
  }

  predicate IsRecovery(a: Action, i: int) {
    a == Recover(i) || a == RecoverDurable(i)
  }

  /** Server i is down, or one of the two has cut the other off. */
  predicate Unheard(c: Cluster, j: int, i: int)
    requires j in c && i in c
  {
    !c[i].active || i in c[j].partitionedFrom || j in c[i].partitionedFrom
  }

  lemma {:induction false} AskingSkips(c: Cluster, j: int, ps: seq<int>, i: int)
    requires j in c && i in c && i != j && j !in ps && Unheard(c, j, i) && (forall p | p in ps :: p in c)
    ensures var r := CollectVotes(c, j, ps).0; r[i] == c[i] && r[j] == c[j]
  {
    hide HandleVote;
    if ps != [] {
      AskingSkips(c, j, ps[..|ps| - 1], i);
    }
  }

  lemma {:induction false} BeatingSkips(c: Cluster, j: int, ps: seq<int>, i: int)
    requires j in c && i in c && i != j && j !in ps && Unheard(c, j, i) && (forall p | p in ps :: p in c)
    ensures var r := Heartbeats(c, j, ps); r[i] == c[i] && r[j] == c[j]
  {
    hide HandleAppend;
    if ps != [] {
      BeatingSkips(c, j, ps[..|ps| - 1], i);
    }
  }

  lemma {:induction false} ReplicatingSkips(c: Cluster, j: int, ps: seq<int>, i: int)
    requires j in c && i in c && Unheard(c, j, i) && j !in ps && (forall p | p in ps :: p in c)
    ensures var r := Replicate(c, j, ps); SameLeader(c[j], r[j]) && (i != j ==> r[i] == c[i])
  {
    hide SendTo;
    if ps != [] {
      var p := ps[|ps| - 1];
      ReplicatingSkips(c, j, ps[..|ps| - 1], i);
      SendFrame(Replicate(c, j, ps[..|ps| - 1]), j, p);
    }
  }

  lemma ReplicateLogSkips(c: Cluster, j: int, i: int)
    requires Mesh(c) && j in c && i in c && Unheard(c, j, i)
    ensures var r := ReplicateLog(c, j); SameLeader(c[j], r[j]) && (i != j ==> r[i] == c[i])
  {
    hide Replicate;
    assert MeshAt(c, j);
    if c[j].role == Leader {
      ReplicatingSkips(c, j, c[j].peers, i);
    }
  }

  lemma ElectionSkips(c: Cluster, j: int, i: int)
    requires Mesh(c) && j in c && i in c && Unheard(c, j, i) && (i == j ==> !c[i].active)
    ensures StartElection(c, j).0[i] == c[i]
  {
    hide CollectVotes, Heartbeats;
    assert MeshAt(c, j);
    if c[j].active {
      var ps := c[j].peers;
      var c0 := c[j := Candidacy(c[j], j)];
      AskingSkips(c0, j, ps, i);
      var c1 := CollectVotes(c0, j, ps).0;
      BeatingSkips(c1[j := Crowned(c1[j], j)], j, ps, i);
    }
  }

  lemma ClientSkips(c: Cluster, j: int, message: string, i: int)
    requires Mesh(c) && j in c && i in c && Unheard(c, j, i) && (i == j ==> !c[i].active)
    ensures ClientMessage(c, j, message).0[i] == c[i] && (i == j ==> ClientMessage(c, j, message) == (c, false))
  {
    hide ReplicateLog, Commit;
    if c[j].active && c[j].role == Leader {
      var c0 := c[j := c[j].(log := c[j].log + [LogEntry(c[j].term, message)])];
      MeshStays(c, c0);
      ReplicateLogSkips(c0, j, i);
    }
  }

  lemma SyncSkips(c: Cluster, j: int, l: int, i: int)
    requires j in c && l in c && i in c && !c[i].active
    ensures SyncFromLeader(c, j, l).0[i] == c[i] && (i == j || i == l ==> SyncFromLeader(c, j, l) == (c, false))
  {
    hide SendTo;
    if j != l {
      SendFrame(c, l, j);
    } else if c[l].active {
      SendSelf(c, l);
    }
  }

  lemma CommitSleeps(s: Server)
    requires !s.active
    ensures Asleep(s, Commit(s))
  {
    hide CommitScan;
  }

  lemma AsleepOn(s: Server, u: Server, v: Server)
    requires Asleep(s, u) && Asleep(u, v)
    ensures Asleep(s, v)
  {
  }

  /** No call wakes it but its own recovery. */
  lemma StepSleeps(c: Cluster, a: Action, i: int)
    requires Mesh(c) && i in c && !c[i].active && !IsRecovery(a, i)
    ensures Asleep(c[i], Next(c, a)[i])
  {
    hide StartElection, ClientMessage, ReplicateLog, Commit, SyncFromLeader;
    if Enabled(c, a) {
      match a
      case Elect(j) => ElectionSkips(c, j, i);
      case Client(j, m) => ClientSkips(c, j, m, i);
      case Replicating(j) => ReplicateLogSkips(c, j, i);
      case Committing(j) => CommitSleeps(c[i]);
      case Sync(j, l) => SyncSkips(c, j, l, i);
      case _ =>
    }
  }

  /** From a crash to the next recovery nothing that others do reaches the server, and it neither votes, stands, syncs
      nor takes a write: its term, vote, log and role stay. */
  lemma {:induction false} CrashedStaysOut(c0: Cluster, acts: seq<Action>, m: nat, k: nat, i: int)
    requires Mesh(c0) && m < k <= |acts| && i in c0 && acts[m] == Crash(i)
    requires forall n | m < n < k :: !IsRecovery(acts[n], i)
    ensures Asleep(State(c0, acts, m)[i], State(c0, acts, k)[i])
    decreases k
  {
    hide State, Asleep;
    StateNext(c0, acts, k - 1);
    if m + 1 < k {
      hide Next;
      CrashedStaysOut(c0, acts, m, k - 1, i);
      StillDown(State(c0, acts, m)[i], State(c0, acts, k - 1)[i]);
      StepSleeps(State(c0, acts, k - 1), acts[k - 1], i);
      AsleepOn(State(c0, acts, m)[i], State(c0, acts, k - 1)[i], State(c0, acts, k)[i]);
    } else {
      CrashSleeps(State(c0, acts, m), i);
    }
  }

  lemma StillDown(s: Server, u: Server)
    requires Asleep(s, u)
    ensures !u.active
  {
  }

  lemma CrashSleeps(c: Cluster, i: int)
    requires Mesh(c) && i in c
    ensures Asleep(c[i], Next(c, Crash(i))[i])
  {
  }

  // ---- cut off ----

  /** A server cut off from every other one, by either side, is changed by no call on another server. Only a sync does
      not look at partitions. */
  lemma IsolatedStays(c: Cluster, a: Action, i: int)
    requires Mesh(c) && i in c && a.i != i && !a.Sync?
    requires forall j | j in c && j != i :: i in c[j].partitionedFrom || j in c[i].partitionedFrom
    ensures Next(c, a)[i] == c[i]
  {
    hide StartElection, ClientMessage, ReplicateLog, Commit;
    if Enabled(c, a) {
      assert Unheard(c, a.i, i);
      match a
      case Elect(j) => ElectionSkips(c, j, i);
      case Client(j, m) => ClientSkips(c, j, m, i);
      case Replicating(j) => ReplicateLogSkips(c, j, i);
      case _ =>
    }
  }

  // ---- up again ----

  /** Call k is not an election that i wins. */
  ghost predicate NoWin(c0: Cluster, acts: seq<Action>, k: nat, i: int)
    requires Mesh(c0) && k < |acts| && i in c0
  {
    acts[k] == Elect(i) ==> !StartElection(State(c0, acts, k), i).1
  }

  /** recover(), as it is and as it is documented, brings a server back up as a follower that knows of no leader;
      only the first forgets the vote, and all else is as it went down. */
  lemma RecoveryResult(c: Cluster, a: Action, i: int)
    requires Mesh(c) && i in c && IsRecovery(a, i)
    ensures var s, u := c[i], Next(c, a)[i];
            && u.active && u.role == Follower && u.leaderId == -1
            && u.term == s.term && u.log == s.log && u.votedFor == (if a.RecoverDurable? then s.votedFor else None)
            && u.commitIndex == s.commitIndex && u.lastApplied == s.lastApplied && u.applied == s.applied
            && u.partitionedFrom == s.partitionedFrom && u.peers == s.peers
            && u.nextIndex == s.nextIndex && u.matchIndex == s.matchIndex
            && forall p | p in c && p != i :: Next(c, a)[p] == c[p]
  {
  }

  lemma NotInOffice(c: Cluster, i: int, message: string)
    requires Mesh(c) && i in c && c[i].role != Leader
    ensures ClientMessage(c, i, message) == (c, false)
  {
  }

  /** After a recovery the server leads nothing and takes no client write until it wins an election, whether or not it
      led when it went down. */
  lemma {:induction false} BackAsFollower(c0: Cluster, acts: seq<Action>, m: nat, k: nat, i: int, message: string)
    requires Mesh(c0) && m < k <= |acts| && i in c0 && IsRecovery(acts[m], i)
    requires forall n | m < n < k :: NoWin(c0, acts, n, i)
    ensures State(c0, acts, k)[i].role != Leader
    ensures ClientMessage(State(c0, acts, k), i, message) == (State(c0, acts, k), false)
    decreases k
  {
    hide State, Next, ClientMessage, IsRecovery, StartElection;
    StateNext(c0, acts, k - 1);
    if m + 1 < k {
      BackAsFollower(c0, acts, m, k - 1, i, message);
      assert NoWin(c0, acts, k - 1, i);
      StaysOut(State(c0, acts, k - 1), acts[k - 1], i);
    } else {
      RecoveryResult(State(c0, acts, m), acts[m], i);
    }
    NotInOffice(State(c0, acts, k), i, message);
  }

  lemma StaysOut(c: Cluster, a: Action, i: int)
    requires Mesh(c) && i in c && c[i].role != Leader && (a == Elect(i) ==> !StartElection(c, i).1)
    ensures Next(c, a)[i].role != Leader
  {
    hide StartElection;
    if !a.Recover? {
      hide Next;
      CallVotes(c, a);
      assert !WonBy(RaceOf(c, a), i);
    }
  }
}
