/** The public calls of RaftNode as steps of a whole cluster. RPCs are direct calls, so each
    public call is one atomic step. */
module RaftCluster {
  import opened RaftServer

  /** node id -> server */
  type Cluster = map<int, Server>

  ghost predicate NoDup(ps: seq<int>) {
    forall j, k | 0 <= j < k < |ps| :: ps[j] != ps[k]
  }

  /** Every server lists every other server once. */
  ghost predicate Mesh(c: Cluster) {
    forall i | i in c :: MeshAt(c, i)
  }

  ghost predicate MeshAt(c: Cluster, i: int)
    requires i in c
  {
    NoDup(c[i].peers) && (forall p :: p in c[i].peers <==> p in c && p != i)
  }

  ghost predicate SamePeers(c: Cluster, r: Cluster) {
    r.Keys == c.Keys && forall p | p in c :: r[p].peers == c[p].peers
  }

  predicate CanReach(c: Cluster, i: int, p: int)
    requires i in c && p in c
  {
    c[p].active && p !in c[i].partitionedFrom && i !in c[p].partitionedFrom
  }

  /** `votes >= total // 2 + 1` */
  predicate IsMajority(votes: nat, total: nat) {
    votes >= total / 2 + 1
  }

  // ---- start_election ----

  function Candidacy(s: Server, i: int): Server {
    s.(role := Candidate, term := s.term + 1, votedFor := Some(i))
  }

  /** Ask one peer, if it can be reached. */
  function AskStep(c: Cluster, votes: nat, i: int, p: int): (r: (Cluster, nat))
    requires i in c && p in c
    ensures SamePeers(c, r.0)
  {
    if !CanReach(c, i, p) then (c, votes) else
    var (s, granted) := HandleVote(c[p], i, c[i].term, |c[i].log| - 1, LastTerm(c[i].log));
    (c[p := s], if granted then votes + 1 else votes)
  }

  /** Ask each peer in turn; the count starts with the candidate's own vote. */
  function CollectVotes(c: Cluster, i: int, ps: seq<int>): (r: (Cluster, nat))
    requires i in c && (forall p | p in ps :: p in c)
    ensures SamePeers(c, r.0)
  {
    if ps == [] then (c, 1) else
    var (c1, votes) := CollectVotes(c, i, ps[..|ps| - 1]);
    AskStep(c1, votes, i, ps[|ps| - 1])
  }

  /** Leader state right after a win, before the first heartbeat. */
  function Crowned(s: Server, i: int): Server {
    s.(role := Leader, leaderId := i,
       nextIndex := SetAll(s.nextIndex, s.peers, |s.log|),
       matchIndex := SetAll(s.matchIndex, s.peers, -1))
  }

  function SetAll<T>(m: map<int, T>, ps: seq<int>, v: T): (r: map<int, T>)
    ensures forall p | p in ps :: p in r && r[p] == v
    ensures forall p | p !in ps :: (p in r <==> p in m) && (p in m ==> r[p] == m[p])
  {
    if ps == [] then m else SetAll(m, ps[..|ps| - 1], v)[ps[|ps| - 1] := v]
  }

  /** Term of the entry just before `next`, or 0 when there is none. */
  function PrevTerm(log: Log, next: nat): nat {
    if 1 <= next <= |log| then log[next - 1].term else 0
  }

  function Suffix(log: Log, next: nat): Log {
    if next <= |log| then log[next..] else []
  }

  /** Send one peer an empty AppendEntries, if it can be reached. */
  function BeatStep(c: Cluster, i: int, p: int): (r: Cluster)
    requires i in c && p in c
    ensures SamePeers(c, r)
  {
    if !CanReach(c, i, p) then c else
    var next := NextOf(c[i], p);
    c[p := HandleAppend(c[p], i, c[i].term, next - 1, PrevTerm(c[i].log, next), [], c[i].commitIndex).0]
  }

  function Heartbeats(c: Cluster, i: int, ps: seq<int>): (r: Cluster)
    requires i in c && (forall p | p in ps :: p in c)
    ensures SamePeers(c, r)
  {
    if ps == [] then c else BeatStep(Heartbeats(c, i, ps[..|ps| - 1]), i, ps[|ps| - 1])
  }

  /** Step 4 of start_election. */
  function Decide(c: Cluster, votes: nat, i: int): (r: (Cluster, bool))
    requires i in c && (forall p | p in c[i].peers :: p in c)
    ensures SamePeers(c, r.0)
  {
    if IsMajority(votes, |c[i].peers| + 1)
    then (Heartbeats(c[i := Crowned(c[i], i)], i, c[i].peers), true)
    else (c[i := c[i].(role := Follower)], false)
  }

  function StartElection(c: Cluster, i: int): (r: (Cluster, bool))
    requires Mesh(c) && i in c
    ensures SamePeers(c, r.0)
  {
    if !c[i].active then (c, false) else
    var (c1, votes) := CollectVotes(c[i := Candidacy(c[i], i)], i, c[i].peers);
    Decide(c1, votes, i)
  }

  // ---- replicate_log ----

  /** One AppendEntries call of leader i to p with the entries from `next` on. */
  function Append(c: Cluster, i: int, p: int, next: nat): (r: (Server, bool))
    requires i in c && p in c
    ensures r.0.peers == c[p].peers
  {
    var s := c[i];
    HandleAppend(c[p], i, s.term, next - 1, PrevTerm(s.log, next), Suffix(s.log, next), s.commitIndex)
  }

  /** A server that sends to itself finds its own log there. */
  lemma AppendSelf(c: Cluster, i: int, next: nat)
    requires i in c
    ensures var (s, ok) := Append(c, i, i, next);
            if c[i].active then s == Follow(c[i], i, c[i].term) && (next <= |c[i].log| ==> ok) else s == c[i] && !ok
  {
    hide Merge;
    if next <= |c[i].log| {
      MergeWithLeader(c[i].log, c[i].log, next);
    }
  }

  /** One round of the retry loop: the cluster after it, and whether the loop ends. */
  function SendOnce(c: Cluster, i: int, p: int): (r: (Cluster, bool))
    requires i in c && p in c
    ensures SamePeers(c, r.0)
    ensures !r.1 ==> NextOf(r.0[i], p) < NextOf(c[i], p)
  {
    var (s, ok) := Append(c, i, p, NextOf(c[i], p));
    Answered(c[p := s], i, p, ok)
  }

  /** What the leader makes of the answer. */
  function Answered(c: Cluster, i: int, p: int, ok: bool): (r: (Cluster, bool))
    requires i in c
    ensures SamePeers(c, r.0)
    ensures !r.1 ==> NextOf(r.0[i], p) < NextOf(c[i], p)
  {
    var next := NextOf(c[i], p);
    var sent := Suffix(c[i].log, next);
    if ok then (if sent == [] then c else c[i := Acked(c[i], p, next + |sent|)], true)
    else if next > 0 then (c[i := Backed(c[i], p, next - 1)], false)
    else (c, true)
  }

  /** _send_append_entries_to_peer: retry one entry further back until accepted, or until there is
      nothing further back. */
  function SendTo(c: Cluster, i: int, p: int): (r: Cluster)
    requires i in c && p in c
    ensures SamePeers(c, r)
    decreases NextOf(c[i], p)
  {
    var (c1, ended) := SendOnce(c, i, p);
    if ended then c1 else SendTo(c1, i, p)
  }

  /** The retry loop, one round unrolled. */
  lemma SendUnfold(c: Cluster, i: int, p: int)
    requires i in c && p in c && i != p
    ensures var next := NextOf(c[i], p);
            var (s, ok) := Append(c, i, p, next);
            SendTo(c, i, p) ==
              if ok then (if Suffix(c[i].log, next) == [] then c[p := s]
                          else c[p := s][i := Acked(c[i], p, |c[i].log|)])
              else if next > 0 then SendTo(c[p := s][i := Backed(c[i], p, next - 1)], i, p)
              else c[p := s]
  {
    hide Append;
  }

  function Acked(s: Server, p: int, upTo: nat): Server {
    s.(nextIndex := s.nextIndex[p := upTo], matchIndex := s.matchIndex[p := upTo - 1])
  }

  function Backed(s: Server, p: int, next: nat): Server {
    s.(nextIndex := s.nextIndex[p := next])
  }

  function Replicate(c: Cluster, i: int, ps: seq<int>): (r: Cluster)
    requires i in c && i !in ps && (forall p | p in ps :: p in c)
    ensures SamePeers(c, r)
  {
    if ps == [] then c else
    var p := ps[|ps| - 1];
    var c1 := Replicate(c, i, ps[..|ps| - 1]);
    if CanReach(c1, i, p) then SendTo(c1, i, p) else c1
  }

  function ReplicateLog(c: Cluster, i: int): (r: Cluster)
    requires Mesh(c) && i in c
    ensures SamePeers(c, r)
  {
    if c[i].role != Leader then c else Replicate(c, i, c[i].peers)
  }

  // ---- commit_entries ----

  /** 1 for the leader plus the peers whose match index reaches n. */
  function AckCount(s: Server, ps: seq<int>, n: int): nat {
    if ps == [] then 1 else
    AckCount(s, ps[..|ps| - 1], n) + (if MatchOf(s, ps[|ps| - 1]) >= n then 1 else 0)
  }

  predicate Committable(s: Server, n: int)
    requires 0 <= n < |s.log|
  {
    s.log[n].term == s.term && IsMajority(AckCount(s, s.peers, n), |s.peers| + 1)
  }

  /** Highest committable index in (commitIndex, n], or commitIndex. */
  function CommitScan(s: Server, n: int): (r: Index)
    requires s.commitIndex <= n < |s.log|
    ensures s.commitIndex <= r <= n
    decreases n - s.commitIndex
  {
    if n == s.commitIndex || Committable(s, n) then n else CommitScan(s, n - 1)
  }

  function Commit(s: Server): Server {
    if s.role != Leader || s.commitIndex >= |s.log| then s else
    var n := CommitScan(s, |s.log| - 1);
    if n == s.commitIndex then s else Apply(s.(commitIndex := n))
  }

  // ---- receive_client_message ----

  function ClientMessage(c: Cluster, i: int, message: string): (r: (Cluster, bool))
    requires Mesh(c) && i in c
    ensures SamePeers(c, r.0)
  {
    if !c[i].active || c[i].role != Leader then (c, false) else
    var c1 := ReplicateLog(c[i := c[i].(log := c[i].log + [LogEntry(c[i].term, message)])], i);
    var s := Commit(c1[i]);
    (c1[i := s], s.commitIndex >= |s.log| - 1)
  }

  // ---- crash, partition and rejoin helpers ----

  /** recover as written: the vote is cleared as well. */
  function Recovered(s: Server): Server {
    s.(active := true, role := Follower, leaderId := -1, votedFor := None)
  }

  /** recover as its documentation describes it: the persistent state survives. */
  function RecoveredDurably(s: Server): Server {
    s.(active := true, role := Follower, leaderId := -1)
  }

  /** sync_from_leader, called on i. */
  function SyncFromLeader(c: Cluster, i: int, leader: int): (r: (Cluster, bool))
    requires i in c && leader in c
    ensures SamePeers(c, r.0)
  {
    if !c[i].active || !c[leader].active || c[leader].role != Leader then (c, false) else
    var c1 := SendTo(c, leader, i);
    (c1[i := LearnCommit(c1[i], c1[leader].commitIndex)], true)
  }

  // ---- steps ----

  datatype Action =
    | Elect(i: int)
    | Client(i: int, message: string)
    | Replicating(i: int)
    | Committing(i: int)
    | Crash(i: int)
    | Recover(i: int)
    | RecoverDurable(i: int)
    | Partition(i: int, ids: set<int>)
    | Heal(i: int)
    | Sync(i: int, leader: int)

  predicate Enabled(c: Cluster, a: Action) {
    a.i in c && (a.Sync? ==> a.leader in c)
  }

  /** One public call; a call on a node that does not exist changes nothing. */
  function Next(c: Cluster, a: Action): (r: Cluster)
    requires Mesh(c)
    ensures SamePeers(c, r)
  {
    if !Enabled(c, a) then c else
    match a
    case Elect(i) => StartElection(c, i).0
    case Client(i, m) => ClientMessage(c, i, m).0
    case Replicating(i) => ReplicateLog(c, i)
    case Committing(i) => c[i := Commit(c[i])]
    case Crash(i) => c[i := c[i].(active := false)]
    case Recover(i) => c[i := Recovered(c[i])]
    case RecoverDurable(i) => c[i := RecoveredDurably(c[i])]
    case Partition(i, ids) => c[i := c[i].(partitionedFrom := ids)]
    case Heal(i) => c[i := c[i].(partitionedFrom := {})]
    case Sync(i, l) => SyncFromLeader(c, i, l).0
  }

  lemma MeshStays(c: Cluster, r: Cluster)
    requires Mesh(c) && SamePeers(c, r)
    ensures Mesh(r)
  {
    forall i | i in r ensures MeshAt(r, i) {
      assert MeshAt(c, i);
    }
  }

  /** The cluster after a sequence of public calls. */
  function Exec(c: Cluster, acts: seq<Action>): (r: Cluster)
    requires Mesh(c)
    ensures Mesh(r) && SamePeers(c, r)
  {
    if acts == [] then c else
    var c1 := Exec(c, acts[..|acts| - 1]);
    MeshStays(c1, Next(c1, acts[|acts| - 1]));
    Next(c1, acts[|acts| - 1])
  }

  /** A fresh cluster: the constructor's field values on every node. */
  predicate Fresh(c: Cluster) {
    forall i | i in c :: c[i] == FreshServer(c[i].peers)
  }

  function FreshServer(peers: seq<int>): Server {
    Server(peers, 0, None, [], -1, -1, map[], map[], Follower, -1, true, {}, [])
  }
}
