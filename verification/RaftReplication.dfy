/** What one replicate_log of a leader achieves: which peers catch up, how far, and which of them it then counts. */
module RaftReplication {
  import opened RaftServer
  import opened RaftCluster
  import opened RaftInvariant
  import opened RaftCalls
  import opened RaftSafety
  import opened RaftProgress

  /** The peer is in the leader's term, holds its log and has reached its commit point. */
  predicate CaughtUp(leader: Server, peer: Server) {
    leader.log <= peer.log && peer.term == leader.term && peer.commitIndex >= leader.commitIndex
  }

  /** The receptive peers of ps have caught up with i, the others have not changed. */
  ghost predicate Spread(c: Cluster, r: Cluster, i: int, ps: seq<int>)
    requires i in c && r.Keys == c.Keys && forall p | p in ps :: p in c
  {
    forall p | p in ps :: if Receptive(c, i, p) then CaughtUp(c[i], r[p]) else r[p] == c[p]
  }

  lemma SendSpreads(c: Cluster, h: History, i: int, p: int)
    requires Inv(c, h) && i in c && p in c && i != p && c[i].role == Leader && CanReach(c, i, p)
    ensures var r := SendTo(c, i, p); if Receptive(c, i, p) then CaughtUp(c[i], r[p]) else r[p] == c[p]
  {
    hide Inv, SendTo;
    if c[p].term <= c[i].term {
      SendRepairs(c, h, i, p);
    } else {
      SendStale(c, i, p);
    }
  }

  lemma SpreadNext(c: Cluster, c1: Cluster, r: Cluster, i: int, rest: seq<int>, p: int)
    requires i in c && c1.Keys == c.Keys && r.Keys == c.Keys && p in c && p != i && p !in rest && i !in rest
    requires (forall q | q in rest :: q in c) && Spread(c, c1, i, rest) && SameLeader(c[i], c1[i]) && c1[p] == c[p]
    requires forall q | q in rest :: r[q] == c1[q]
    requires if Receptive(c1, i, p) then CaughtUp(c1[i], r[p]) else r[p] == c1[p]
    ensures Spread(c, r, i, rest + [p])
  {
    assert Receptive(c1, i, p) == Receptive(c, i, p);
  }

  lemma {:induction false} ReplicateSpreads(c: Cluster, h: History, i: int, ps: seq<int>)
    requires Inv(c, h) && i in c && i !in ps && c[i].role == Leader && NoDup(ps) && forall p | p in ps :: p in c
    requires forall p | p in ps :: NextOf(c[i], p) <= |c[i].log|
    ensures Spread(c, Replicate(c, i, ps), i, ps)
  {
    hide Inv, Advances, SendTo, Spread, CaughtUp, CanReach, Receptive, HoldsLast, MatchOf, NextOf;
    if ps == [] {
      SpreadNone(c, i);
    } else {
      var p := ps[|ps| - 1];
      var rest := ps[..|ps| - 1];
      assert ps == rest + [p] && p !in rest;
      ReplicateSpreads(c, h, i, rest);
      ReplicateCounts(c, i, rest);
      var h1 := ReplicateOk(c, h, i, rest);
      var c1 := Replicate(c, i, rest);
      SendFrame(c1, i, p);
      if CanReach(c1, i, p) {
        SendSpreads(c1, h1, i, p);
      } else {
        Unreceptive(c1, i, p);
      }
      SpreadNext(c, c1, Replicate(c, i, ps), i, rest, p);
    }
  }

  lemma SpreadNone(c: Cluster, i: int)
    requires i in c
    ensures Spread(c, c, i, [])
  {
  }

  lemma Unreceptive(c: Cluster, i: int, p: int)
    requires i in c && p in c && !CanReach(c, i, p)
    ensures !Receptive(c, i, p)
  {
  }

  /** When a leader has replicated its log, every receptive peer is in its term, holds its whole log and has applied all
      that the leader has; no other peer has changed. The leader's match index for a peer is then the end of its log,
      except that it stays where it was for a peer that is not receptive, or that held the last entry before and was
      therefore sent nothing. */
  lemma ReplicationSpreads(c0: Cluster, acts: seq<Action>, k: nat, i: int, p: int)
    requires Admissible(c0, acts) && k <= |acts| && i in c0 && p in c0 && i != p
    requires State(c0, acts, k)[i].role == Leader
    ensures var c := State(c0, acts, k);
            var r := ReplicateLog(c, i);
            && (if Receptive(c, i, p) then CaughtUp(c[i], r[p]) && c[i].applied <= r[p].applied else r[p] == c[p])
            && MatchOf(r[i], p) == (if NewlyCounted(c, i, p) then |c[i].log| - 1 else MatchOf(c[i], p))
  {
    hide Inv, Advances, Next, State, Receptive, NewlyCounted, Replicate;
    var hs := RunOk(c0, acts, k);
    var c := State(c0, acts, k);
    Parts(c, hs[k], i);
    LeaderInLog(c, hs[k], i);
    ReplicateSpreads(c, hs[k], i, c[i].peers);
    ReplicateCounts(c, i, c[i].peers);
    var h' := ReplicateOk(c, hs[k], i, c[i].peers);
    var r := ReplicateLog(c, i);
    assert r == Replicate(c, i, c[i].peers);
    if Receptive(c, i, p) {
      AppliedPrefix(c, hs[k], i, r, h', p);
    }
  }

  lemma AppliedPrefix(c: Cluster, h: History, i: int, r: Cluster, h': History, p: int)
    requires Inv(c, h) && Inv(r, h') && i in c && p in r && CaughtUp(c[i], r[p])
    ensures c[i].applied <= r[p].applied
  {
    hide Inv, Certified;
    Parts(c, h, i);
    Parts(r, h', p);
    var m, n := c[i].commitIndex + 1, r[p].commitIndex + 1;
    assert r[p].log[..n][..m] == r[p].log[..m] == c[i].log[..m];
  }

  // ---- sync_from_leader ----

  /** Taking over a commit point extends what was applied up to it, or to the end of the log. */
  lemma LearnApplies(s: Server, n: Index)
    requires n > s.commitIndex && s.lastApplied == s.commitIndex < |s.log| && s.applied == s.log[..s.commitIndex + 1]
    ensures LearnCommit(s, n).applied == s.log[..Min(n + 1, |s.log|)]
  {
    var m := Min(n + 1, |s.log|);
    assert s.log[..m] == s.log[..s.commitIndex + 1] + s.log[s.commitIndex + 1..m];
  }

  /** What a sync of i with l that answered `done` has made of i. */
  ghost predicate Synced(c: Cluster, r: Cluster, done: bool, i: int, l: int)
    requires i in c && l in c && i in r
  {
    && (!done ==> r == c)
    && (done && c[i].term <= c[l].term ==> CaughtUp(c[l], r[i]) && c[l].applied <= r[i].applied)
    && (done && c[i].term > c[l].term ==> r[i].log == c[i].log && r[i].term == c[i].term)
    && (done && c[i].term > c[l].term && c[l].commitIndex > c[i].commitIndex ==>
          r[i].applied == c[i].log[..Min(c[l].commitIndex + 1, |c[i].log|)])
    && (done && i == l ==> r[i].role == Follower)
  }

  /** sync_from_leader answers True exactly for two live servers of which the second leads; any other call changes
      nothing. A caller in no later term then is in the leader's term, holds its whole log and has applied all that the
      leader had; a caller in a later term keeps its log and believes the commit point as far as its log reaches.
      A leader that syncs with itself steps down. */
  lemma SyncCatchesUp(c0: Cluster, acts: seq<Action>, k: nat, i: int, l: int)
    requires Admissible(c0, acts) && k <= |acts| && i in c0 && l in c0
    ensures var c := State(c0, acts, k);
            var (r, done) := SyncFromLeader(c, i, l);
            (done <==> c[i].active && c[l].active && c[l].role == Leader) && Synced(c, r, done, i, l)
  {
    hide Inv, Advances, Next, State, Synced, SyncFromLeader, CommitOk, Certified;
    var hs := RunOk(c0, acts, k);
    var c := State(c0, acts, k);
    SyncAnswers(c, i, l);
    if c[i].active && c[l].active && c[l].role == Leader {
      if i == l {
        SelfSyncs(c, i);
      } else if c[i].term <= c[l].term {
        SyncRepairs(c, hs[k], i, l);
      } else {
        Applies(c, hs[k], i);
        SyncBelieves(c, i, l);
      }
    }
  }

  lemma SelfSyncs(c: Cluster, i: int)
    requires i in c && c[i].active && c[i].role == Leader
    ensures Synced(c, SyncFromLeader(c, i, i).0, true, i, i)
  {
    hide SendTo;
    SendSelf(c, i);
  }

  lemma SyncAnswers(c: Cluster, i: int, l: int)
    requires i in c && l in c
    ensures SyncFromLeader(c, i, l).1 <==> c[i].active && c[l].active && c[l].role == Leader
    ensures !SyncFromLeader(c, i, l).1 ==> Synced(c, SyncFromLeader(c, i, l).0, false, i, l)
  {
    hide SendTo;
  }

  lemma Applies(c: Cluster, h: History, i: int)
    requires Inv(c, h) && i in c
    ensures c[i].lastApplied == c[i].commitIndex < |c[i].log| && c[i].applied == c[i].log[..c[i].commitIndex + 1]
  {
    Parts(c, h, i);
  }

  lemma SyncBelieves(c: Cluster, i: int, l: int)
    requires i in c && l in c && i != l && c[i].active && c[l].active && c[l].role == Leader && c[i].term > c[l].term
    requires c[i].lastApplied == c[i].commitIndex < |c[i].log| && c[i].applied == c[i].log[..c[i].commitIndex + 1]
    ensures Synced(c, SyncFromLeader(c, i, l).0, true, i, l)
  {
    hide SendTo, CaughtUp;
    SendStale(c, l, i);
    if c[l].commitIndex > c[i].commitIndex {
      LearnApplies(c[i], c[l].commitIndex);
    }
  }

  lemma SyncRepairs(c: Cluster, h: History, i: int, l: int)
    requires Inv(c, h) && i in c && l in c && i != l && c[l].role == Leader && c[i].active && c[l].active
    requires c[i].term <= c[l].term
    ensures Synced(c, SyncFromLeader(c, i, l).0, true, i, l)
  {
    hide Inv, Advances, SendTo;
    SendRepairs(c, h, l, i);
    SendFrame(c, l, i);
    var h' := SendOk(c, h, l, i);
    var c1 := SendTo(c, l, i);
    assert c1[l].commitIndex == c[l].commitIndex <= c1[i].commitIndex;
    assert c1[i := c1[i]] == c1;
    AppliedPrefix(c, h, l, c1, h', i);
  }
}
