/** The RaftNode class. Its methods update the fields of this node and, by direct calls, of its
    peers; each is proved against the functions of RaftServer.dfy and RaftCluster.dfy. */
module RaftNodes {
  import opened RaftServer
  import opened RaftCluster

  class RaftNode {
    const nodeId: int
    var peers: seq<RaftNode>
    var currentTerm: nat
    var votedFor: Option<int>
    var log: seq<LogEntry>
    var commitIndex: Index
    var lastApplied: Index
    var nextIndex: map<int, nat>
    var matchIndex: map<int, Index>
    var state: Role
    var leaderId: int
    var active: bool
    var partitionedFrom: set<int>
    var applied: seq<LogEntry>  // what the replication module was handed

    constructor (id: int, initialPeers: seq<RaftNode>)
      ensures nodeId == id && peers == initialPeers && View() == FreshServer(Ids(initialPeers))
    {
      nodeId := id;
      peers := initialPeers;
      currentTerm, votedFor, log := 0, None, [];
      commitIndex, lastApplied := -1, -1;
      nextIndex, matchIndex := map[], map[];
      state, leaderId, active, partitionedFrom := Follower, -1, true, {};
      applied := [];
    }

    ghost function View(): Server
      reads this
    {
      Server(Ids(peers), currentTerm, votedFor, log, commitIndex, lastApplied, nextIndex, matchIndex,
             state, leaderId, active, partitionedFrom, applied)
    }

    method SetPeers(ps: seq<RaftNode>)
      modifies this`peers
      ensures peers == ps && View() == old(View()).(peers := Ids(ps))
    {
      peers := ps;
    }

    // ---- RPC handlers ----

    method RequestVote(candidateId: int, candidateTerm: nat, lastLogIndex: int, lastLogTerm: nat)
      returns (granted: bool)
      modifies this
      ensures (View(), granted) == HandleVote(old(View()), candidateId, candidateTerm, lastLogIndex, lastLogTerm)
      ensures peers == old(peers)
    {
      if !active {
        return false;
      }
      if candidateTerm < currentTerm {
        return false;
      }
      if candidateTerm > currentTerm {
        currentTerm := candidateTerm;
        state := Follower;
        votedFor := None;
        leaderId := -1;
      }
      if votedFor != None && votedFor != Some(candidateId) {
        return false;
      }
      var myLastTerm := if log != [] then log[|log| - 1].term else 0;
      var candidateLogOk := lastLogTerm > myLastTerm
        || (lastLogTerm == myLastTerm && lastLogIndex >= |log| - 1);
      if !candidateLogOk {
        return false;
      }
      votedFor := Some(candidateId);
      return true;
    }

    method AppendEntries(leader: int, term: nat, prevLogIndex: Index, prevLogTerm: nat,
                         entries: seq<LogEntry>, leaderCommit: Index)
      returns (ok: bool)
      modifies this
      ensures (View(), ok) ==
        HandleAppend(old(View()), leader, term, prevLogIndex, prevLogTerm, entries, leaderCommit)
      ensures peers == old(peers)
    {
      hide Merge, Apply;
      if !active {
        return false;
      }
      if term < currentTerm {
        return false;
      }
      if term > currentTerm {
        currentTerm := term;
        votedFor := None;
      }
      state := Follower;
      leaderId := leader;
      if prevLogIndex >= 0 {
        if prevLogIndex >= |log| {
          return false;
        }
        if log[prevLogIndex].term != prevLogTerm {
          log := log[..prevLogIndex];
          return false;
        }
      }
      AppendNewEntries(prevLogIndex, entries);
      if leaderCommit > commitIndex {
        commitIndex := if leaderCommit < |log| - 1 then leaderCommit else |log| - 1;
        ApplyCommittedEntries();
      }
      return true;
    }

    /** Rule 3 of append_entries. */
    method AppendNewEntries(prevLogIndex: Index, entries: seq<LogEntry>)
      requires prevLogIndex < |log|
      modifies this`log
      ensures log == Merge(old(log), prevLogIndex + 1, entries)
    {
      for i := 0 to |entries|
        invariant prevLogIndex + 1 + i <= |log|
        invariant Merge(log, prevLogIndex + 1 + i, entries[i..]) == Merge(old(log), prevLogIndex + 1, entries)
      {
        var insertIndex := prevLogIndex + 1 + i;
        assert entries[i..][0] == entries[i] && entries[i..][1..] == entries[i + 1..];
        ghost var before := log;
        if insertIndex < |log| {
          if log[insertIndex].term != entries[i].term {
            log := log[..insertIndex];
            log := log + [entries[i]];
          }
        } else {
          assert log == log[..insertIndex];
          log := log + [entries[i]];
        }
        assert log == before || log == before[..insertIndex] + [entries[i]];
      }
    }

    method ApplyCommittedEntries()
      requires commitIndex < |log|
      modifies this`lastApplied, this`applied
      ensures View() == Apply(old(View()))
    {
      while lastApplied < commitIndex
        invariant lastApplied == old(lastApplied) ==> applied == old(applied)
        invariant lastApplied != old(lastApplied) ==>
          old(lastApplied) < lastApplied <= commitIndex &&
          applied == old(applied) + log[old(lastApplied) + 1..lastApplied + 1]
      {
        lastApplied := lastApplied + 1;
        applied := applied + [log[lastApplied]];
      }
    }

    // ---- elections ----

    method StartElection(ghost nodes: set<RaftNode>) returns (won: bool)
      requires Wired(nodes) && this in nodes
      modifies nodes
      ensures Wired(nodes) && Mesh(old(Snapshot(nodes))) && nodeId in old(Snapshot(nodes))
      ensures (Snapshot(nodes), won) == RaftCluster.StartElection(old(Snapshot(nodes)), nodeId)
    {
      hide Wired, Snapshot, CollectVotes, RaftCluster.Decide;
      Lookup(nodes, this);
      won := false;
      if active {
        state := Candidate;
        currentTerm := currentTerm + 1;
        votedFor := Some(nodeId);
        OnlyChanged(nodes, this);
        var votes := AskPeers(nodes);
        Lookup(nodes, this);
        won := Decide(votes, nodes);
      }
    }

    /** Step 4 of start_election. */
    method Decide(votes: nat, ghost nodes: set<RaftNode>) returns (won: bool)
      requires Wired(nodes) && this in nodes
      modifies nodes
      ensures Wired(nodes) && nodeId in old(Snapshot(nodes))
      ensures forall p | p in old(Snapshot(nodes))[nodeId].peers :: p in old(Snapshot(nodes))
      ensures (Snapshot(nodes), won) == RaftCluster.Decide(old(Snapshot(nodes)), votes, nodeId)
    {
      hide Wired, Snapshot, Heartbeats;
      Lookup(nodes, this);
      var majority := (|peers| + 1) / 2 + 1;
      won := votes >= majority;
      if won {
        BecomeLeader(nodes);
      } else {
        state := Follower;
        OnlyChanged(nodes, this);
      }
    }

    /** Step 3 of start_election: the vote count, own vote included. */
    method AskPeers(ghost nodes: set<RaftNode>) returns (votes: nat)
      requires Wired(nodes) && this in nodes
      modifies nodes
      ensures Wired(nodes) && Mesh(old(Snapshot(nodes))) && nodeId in old(Snapshot(nodes))
      ensures View() == old(View()) && peers == old(peers) && forall p | p in Ids(peers) :: p in old(Snapshot(nodes))
      ensures (Snapshot(nodes), votes) == CollectVotes(old(Snapshot(nodes)), nodeId, Ids(peers))
    {
      hide Wired, Snapshot, AskStep;
      Lookup(nodes, this);
      ghost var c := Snapshot(nodes);
      ghost var ps := Ids(peers);
      votes := 1;
      for k := 0 to |peers|
        invariant Wired(nodes) && View() == old(View()) && peers == old(peers)
        invariant (Snapshot(nodes), votes) == CollectVotes(c, nodeId, ps[..k])
      {
        PrefixStep(ps, k);
        LookupPeer(nodes, this, k);
        votes := AskPeer(peers[k], votes, nodes);
      }
      assert ps[..|peers|] == ps;
    }

    method AskPeer(peer: RaftNode, votes: nat, ghost nodes: set<RaftNode>) returns (tally: nat)
      requires Wired(nodes) && this in nodes && peer in nodes && peer != this
      modifies peer
      ensures Wired(nodes) && nodeId in old(Snapshot(nodes)) && peer.nodeId in old(Snapshot(nodes))
      ensures (Snapshot(nodes), tally) == AskStep(old(Snapshot(nodes)), votes, nodeId, peer.nodeId)
    {
      hide Wired, Snapshot, HandleVote;
      Lookup(nodes, this);
      Lookup(nodes, peer);
      tally := votes;
      if peer.active && peer.nodeId !in partitionedFrom && nodeId !in peer.partitionedFrom {
        var lastLogIndex := |log| - 1;
        var lastLogTerm := if log != [] then log[lastLogIndex].term else 0;
        var granted := peer.RequestVote(nodeId, currentTerm, lastLogIndex, lastLogTerm);
        OnlyChanged(nodes, peer);
        if granted {
          tally := votes + 1;
        }
      }
    }

    method BecomeLeader(ghost nodes: set<RaftNode>)
      requires Wired(nodes) && this in nodes
      modifies nodes
      ensures Wired(nodes) && Mesh(old(Snapshot(nodes))) && nodeId in old(Snapshot(nodes))
      ensures forall p | p in old(Ids(peers)) :: p in old(Snapshot(nodes))
      ensures Snapshot(nodes) ==
        Heartbeats(old(Snapshot(nodes))[nodeId := Crowned(old(View()), nodeId)], nodeId, old(Ids(peers)))
    {
      hide Wired, Snapshot, Heartbeats;
      Lookup(nodes, this);
      InitLeaderState();
      OnlyChanged(nodes, this);
      SendHeartbeats(nodes);
    }

    method InitLeaderState()
      modifies this`state, this`leaderId, this`nextIndex, this`matchIndex
      ensures View() == Crowned(old(View()), nodeId)
    {
      state := Leader;
      leaderId := nodeId;
      ghost var ps := Ids(peers);
      for k := 0 to |peers|
        invariant View() ==
          old(View()).(role := Leader, leaderId := nodeId, nextIndex := nextIndex, matchIndex := matchIndex)
        invariant nextIndex == SetAll(old(nextIndex), ps[..k], |log|)
        invariant matchIndex == SetAll(old(matchIndex), ps[..k], -1)
      {
        PrefixStep(ps, k);
        nextIndex := nextIndex[peers[k].nodeId := |log|];
        matchIndex := matchIndex[peers[k].nodeId := -1];
      }
      assert ps[..|peers|] == ps;
    }

    method SendHeartbeats(ghost nodes: set<RaftNode>)
      requires Wired(nodes) && this in nodes
      modifies nodes
      ensures Wired(nodes) && Mesh(old(Snapshot(nodes))) && nodeId in old(Snapshot(nodes))
      ensures forall p | p in old(Ids(peers)) :: p in old(Snapshot(nodes))
      ensures Snapshot(nodes) == Heartbeats(old(Snapshot(nodes)), nodeId, old(Ids(peers)))
    {
      hide Wired, Snapshot, BeatStep;
      Lookup(nodes, this);
      ghost var c := Snapshot(nodes);
      ghost var ps := Ids(peers);
      for k := 0 to |peers|
        invariant Wired(nodes) && View() == old(View()) && peers == old(peers)
        invariant Snapshot(nodes) == Heartbeats(c, nodeId, ps[..k])
      {
        PrefixStep(ps, k);
        LookupPeer(nodes, this, k);
        SendHeartbeat(peers[k], nodes);
      }
      assert ps[..|peers|] == ps;
    }

    method SendHeartbeat(peer: RaftNode, ghost nodes: set<RaftNode>)
      requires Wired(nodes) && this in nodes && peer in nodes && peer != this
      modifies peer
      ensures Wired(nodes) && nodeId in old(Snapshot(nodes)) && peer.nodeId in old(Snapshot(nodes))
      ensures Snapshot(nodes) == BeatStep(old(Snapshot(nodes)), nodeId, peer.nodeId)
    {
      hide Wired, Snapshot, HandleAppend;
      Lookup(nodes, this);
      Lookup(nodes, peer);
      if peer.active && peer.nodeId !in partitionedFrom && nodeId !in peer.partitionedFrom {
        var next: int := if peer.nodeId in nextIndex then nextIndex[peer.nodeId] else 0;
        var prevLogTerm := if 0 <= next - 1 < |log| then log[next - 1].term else 0;
        var ok := peer.AppendEntries(nodeId, currentTerm, next - 1, prevLogTerm, [], commitIndex);
        OnlyChanged(nodes, peer);
      }
    }

    // ---- replication ----

    method ReceiveClientMessage(message: string, ghost nodes: set<RaftNode>) returns (committed: bool)
      requires Wired(nodes) && this in nodes
      modifies nodes
      ensures Wired(nodes) && Mesh(old(Snapshot(nodes))) && nodeId in old(Snapshot(nodes))
      ensures (Snapshot(nodes), committed) == ClientMessage(old(Snapshot(nodes)), nodeId, message)
    {
      hide Wired, Snapshot, RaftCluster.ReplicateLog, Commit;
      Lookup(nodes, this);
      if !active {
        return false;
      }
      if state != Leader {
        return false;
      }
      log := log + [LogEntry(currentTerm, message)];
      OnlyChanged(nodes, this);
      ReplicateLog(nodes);
      Lookup(nodes, this);
      label replicated:
      CommitEntries();
      OnlyChanged@replicated(nodes, this);
      return commitIndex >= |log| - 1;
    }

    method ReplicateLog(ghost nodes: set<RaftNode>)
      requires Wired(nodes) && this in nodes
      modifies nodes
      ensures Wired(nodes) && Mesh(old(Snapshot(nodes))) && nodeId in old(Snapshot(nodes))
      ensures Snapshot(nodes) == RaftCluster.ReplicateLog(old(Snapshot(nodes)), nodeId)
      ensures peers == old(peers)
    {
      hide Wired, Snapshot, SendTo;
      Lookup(nodes, this);
      if state != Leader {
        return;
      }
      ghost var c := Snapshot(nodes);
      ghost var ps := Ids(peers);
      for k := 0 to |peers|
        invariant Wired(nodes) && peers == old(peers)
        invariant Snapshot(nodes) == Replicate(c, nodeId, ps[..k])
      {
        var peer := peers[k];
        PrefixStep(ps, k);
        Lookup(nodes, this);
        LookupPeer(nodes, this, k);
        if peer.active && peer.nodeId !in partitionedFrom && nodeId !in peer.partitionedFrom {
          SendAppendEntriesToPeer(peer, nodes);
        }
      }
      assert ps[..|peers|] == ps;
    }

    method SendAppendEntriesToPeer(peer: RaftNode, ghost nodes: set<RaftNode>)
      requires Wired(nodes) && this in nodes && peer in nodes
      modifies this, peer
      ensures Wired(nodes) && peers == old(peers)
      ensures nodeId in old(Snapshot(nodes)) && peer.nodeId in old(Snapshot(nodes))
      ensures Snapshot(nodes) == SendTo(old(Snapshot(nodes)), nodeId, peer.nodeId)
    {
      hide Wired, Snapshot, SendOnce;
      Lookup(nodes, this);
      Lookup(nodes, peer);
      ghost var id := peer.nodeId;
      while true
        invariant Wired(nodes) && peers == old(peers)
        invariant nodeId in Snapshot(nodes) && id in Snapshot(nodes)
        invariant SendTo(Snapshot(nodes), nodeId, id) == SendTo(old(Snapshot(nodes)), nodeId, id)
        decreases NextOf(Snapshot(nodes)[nodeId], id)
      {
        var ended := SendRound(peer, nodes);
        if ended {
          break;
        }
      }
    }

    /** The body of the retry loop. */
    method SendRound(peer: RaftNode, ghost nodes: set<RaftNode>) returns (ended: bool)
      requires Wired(nodes) && this in nodes && peer in nodes
      modifies this, peer
      ensures Wired(nodes) && peers == old(peers)
      ensures nodeId in old(Snapshot(nodes)) && peer.nodeId in old(Snapshot(nodes))
      ensures (Snapshot(nodes), ended) == SendOnce(old(Snapshot(nodes)), nodeId, peer.nodeId)
    {
      hide Wired, Snapshot, HandleAppend, Ids;
      var id := peer.nodeId;
      Lookup(nodes, this);
      Lookup(nodes, peer);
      var next: int := if id in nextIndex then nextIndex[id] else 0;
      var prevLogTerm := if 0 <= next - 1 < |log| then log[next - 1].term else 0;
      var entries := if next <= |log| then log[next..] else [];
      if peer != this {
        Apart(nodes, this, peer);
      } else {
        AppendSelf(Snapshot(nodes), id, next);
      }
      var success := peer.AppendEntries(nodeId, currentTerm, next - 1, prevLogTerm, entries, commitIndex);
      OnlyChanged(nodes, peer);
      label answered:
      if success {
        if entries != [] {
          nextIndex := nextIndex[id := next + |entries|];
          matchIndex := matchIndex[id := nextIndex[id] - 1];
          OnlyChanged@answered(nodes, this);
        }
        ended := true;
      } else if next > 0 {
        nextIndex := nextIndex[id := next - 1];
        OnlyChanged@answered(nodes, this);
        ended := false;
      } else {
        ended := true;
      }
    }

    method CommitEntries()
      modifies this`commitIndex, this`lastApplied, this`applied
      ensures View() == Commit(old(View()))
    {
      hide Apply, AckCount;
      if state != Leader {
        return;
      }
      var majority := (|peers| + 1) / 2 + 1;
      var n := |log| - 1;
      while n > commitIndex
        invariant |log| > commitIndex ==>
          commitIndex <= n < |log| && CommitScan(View(), |log| - 1) == CommitScan(View(), n)
        invariant View() == old(View())
        decreases n
      {
        if log[n].term == currentTerm {
          var count := CountReplicas(n);
          if count >= majority {
            commitIndex := n;
            ApplyCommittedEntries();
            return;
          }
        }
        n := n - 1;
      }
    }

    /** The inner loop of commit_entries. */
    method CountReplicas(n: nat) returns (count: nat)
      ensures count == AckCount(View(), Ids(peers), n)
    {
      ghost var ps := Ids(peers);
      count := 1;
      for k := 0 to |peers|
        invariant count == AckCount(View(), ps[..k], n)
      {
        PrefixStep(ps, k);
        var m := if peers[k].nodeId in matchIndex then matchIndex[peers[k].nodeId] else -1;
        if m >= n {
          count := count + 1;
        }
      }
      assert ps[..|peers|] == ps;
    }

    // ---- crash, partition and rejoin helpers ----

    method SimulateCrash()
      modifies this`active
      ensures View() == old(View()).(active := false)
    {
      active := false;
    }

    method Recover()
      modifies this`active, this`state, this`leaderId, this`votedFor
      ensures View() == Recovered(old(View()))
    {
      active := true;
      state := Follower;
      leaderId := -1;
      votedFor := None;
    }

    method PartitionFrom(ids: set<int>)
      modifies this`partitionedFrom
      ensures View() == old(View()).(partitionedFrom := ids)
    {
      partitionedFrom := ids;
    }

    method HealPartition()
      modifies this`partitionedFrom
      ensures View() == old(View()).(partitionedFrom := {})
    {
      partitionedFrom := {};
    }

    method SyncFromLeader(leader: RaftNode, ghost nodes: set<RaftNode>) returns (done: bool)
      requires Wired(nodes) && this in nodes && leader in nodes
      modifies this, leader
      ensures Wired(nodes)
      ensures nodeId in old(Snapshot(nodes)) && leader.nodeId in old(Snapshot(nodes))
      ensures (Snapshot(nodes), done) == RaftCluster.SyncFromLeader(old(Snapshot(nodes)), nodeId, leader.nodeId)
    {
      hide Wired, Snapshot, SendTo;
      Lookup(nodes, this);
      Lookup(nodes, leader);
      if !active || !leader.active {
        return false;
      }
      if leader.state != Leader {
        return false;
      }
      leader.SendAppendEntriesToPeer(this, nodes);
      Lookup(nodes, this);
      Lookup(nodes, leader);
      label sent:
      if leader.commitIndex > commitIndex {
        commitIndex := if leader.commitIndex < |log| - 1 then leader.commitIndex else |log| - 1;
        ApplyCommittedEntries();
      }
      OnlyChanged@sent(nodes, this);
      return true;
    }
  }

  ghost function Ids(ps: seq<RaftNode>): (r: seq<int>)
    ensures |r| == |ps|
  {
    seq(|ps|, k requires 0 <= k < |ps| => ps[k].nodeId)
  }

  /** A full mesh: distinct ids, and every node lists exactly the others, once each. */
  ghost predicate Wired(nodes: set<RaftNode>)
    reads nodes
  {
    && (forall a, b | a in nodes && b in nodes && a.nodeId == b.nodeId :: a == b)
    && forall n | n in nodes :: WiredAt(nodes, n)
  }

  ghost predicate WiredAt(nodes: set<RaftNode>, n: RaftNode)
    reads n
  {
    && (forall k | 0 <= k < |n.peers| :: n.peers[k] in nodes && n.peers[k] != n)
    && (forall p | p in nodes && p != n :: p in n.peers)
    && (forall j, k | 0 <= j < k < |n.peers| :: n.peers[j] != n.peers[k])
  }

  ghost function Snapshot(nodes: set<RaftNode>): Cluster
    requires Wired(nodes)
    reads nodes
  {
    map n | n in nodes :: n.nodeId := n.View()
  }

  // ---- reading a snapshot ----

  /** Nothing but x changed, and x kept its peers. */
  twostate lemma OnlyChanged(nodes: set<RaftNode>, new x: RaftNode)
    requires old(Wired(nodes)) && x in nodes && x.peers == old(x.peers)
    requires forall n | n in nodes && n != x :: unchanged(n)
    ensures Wired(nodes) && Snapshot(nodes) == old(Snapshot(nodes))[x.nodeId := x.View()]
  {
    forall n | n in nodes ensures WiredAt(nodes, n) {
      assert old(WiredAt(nodes, n));
    }
  }

  lemma Lookup(nodes: set<RaftNode>, x: RaftNode)
    requires Wired(nodes) && x in nodes
    ensures var c := Snapshot(nodes);
            && Mesh(c) && x.nodeId in c && c[x.nodeId] == x.View()
            && forall p | p in Ids(x.peers) :: p in c && p != x.nodeId
  {
    var c := Snapshot(nodes);
    forall i | i in c ensures MeshAt(c, i) {
      var n :| n in nodes && n.nodeId == i;
      MeshOf(nodes, n);
    }
    assert MeshAt(c, x.nodeId);
  }

  lemma MeshOf(nodes: set<RaftNode>, n: RaftNode)
    requires Wired(nodes) && n in nodes
    ensures MeshAt(Snapshot(nodes), n.nodeId)
  {
    var c := Snapshot(nodes);
    var ids := Ids(n.peers);
    assert WiredAt(nodes, n);
    assert forall k | 0 <= k < |ids| :: ids[k] == n.peers[k].nodeId;
    forall p ensures p in ids <==> p in c && p != n.nodeId {
      if p in c && p != n.nodeId {
        var q :| q in nodes && q.nodeId == p;
        var k :| 0 <= k < |n.peers| && n.peers[k] == q;
        assert ids[k] == p;
      }
    }
  }

  lemma LookupPeer(nodes: set<RaftNode>, x: RaftNode, k: nat)
    requires Wired(nodes) && x in nodes && k < |x.peers|
    ensures var p := x.peers[k];
            var c := Snapshot(nodes);
            && p in nodes && p != x && p.nodeId != x.nodeId && p.nodeId == Ids(x.peers)[k]
            && p.nodeId in c && c[p.nodeId] == p.View()
  {
    assert WiredAt(nodes, x);
  }

  lemma Apart(nodes: set<RaftNode>, x: RaftNode, y: RaftNode)
    requires Wired(nodes) && x in nodes && y in nodes && x != y
    ensures x.nodeId != y.nodeId
  {
  }

  lemma PrefixStep(ps: seq<int>, k: nat)
    requires k < |ps|
    ensures ps[..k + 1] == ps[..k] + [ps[k]] && ps[..k + 1][..k] == ps[..k] && ps[..k + 1][k] == ps[k]
  {
  }
}
