/** Every AppendEntries of a run, in the state in which it is sent: also the appends in the middle of a public call,
    after the earlier appends of the same call have changed the cluster. */
module RaftAppends {
  import opened RaftServer
  import opened RaftCluster
  import opened RaftInvariant
  import opened RaftSteps
  import opened RaftCalls
  import opened RaftSafety

  /** The retry loop of i towards p, entered in c, comes to a round in which the cluster is m. */
  ghost predicate InRound(c: Cluster, i: int, p: int, m: Cluster)
    requires i in c && p in c
    decreases NextOf(c[i], p)
  {
    m == c ||
    var (c1, ended) := SendOnce(c, i, p);
    !ended && InRound(c1, i, p, m)
  }

  /** The loop over the peers ps, entered in c, comes to a round towards p in which the cluster is m. */
  ghost predicate InReplicate(c: Cluster, i: int, ps: seq<int>, p: int, m: Cluster)
    requires i in c && i !in ps && forall q | q in ps :: q in c
  {
    exists k | 0 <= k < |ps| :: ps[k] == p && ReachesRound(c, i, ps[..k], p, m)
  }

  ghost predicate ReachesRound(c: Cluster, i: int, before: seq<int>, p: int, m: Cluster)
    requires i in c && i !in before && p in c && forall q | q in before :: q in c
  {
    var c1 := Replicate(c, i, before);
    CanReach(c1, i, p) && InRound(c1, i, p, m)
  }

  /** The first heartbeats to ps, sent from c, come to p when the cluster is m. */
  ghost predicate InHeartbeats(c: Cluster, i: int, ps: seq<int>, p: int, m: Cluster)
    requires i in c && i !in ps && forall q | q in ps :: q in c
  {
    exists k | 0 <= k < |ps| :: ps[k] == p && BeatReaches(c, i, ps[..k], p, m)
  }

  ghost predicate BeatReaches(c: Cluster, i: int, before: seq<int>, p: int, m: Cluster)
    requires i in c && i !in before && p in c && forall q | q in before :: q in c
  {
    m == Heartbeats(c, i, before) && CanReach(m, i, p)
  }

  /** The cluster in which a won election starts its heartbeats. */
  function Enthronement(c: Cluster, i: int): (r: Cluster)
    requires Mesh(c) && i in c
    ensures SamePeers(c, r)
  {
    var c1 := CollectVotes(c[i := Candidacy(c[i], i)], i, c[i].peers).0;
    c1[i := Crowned(c1[i], i)]
  }

  /** The call a, made in c, sends an AppendEntries from i to another server p when the cluster is m. */
  ghost predicate Sends(c: Cluster, a: Action, m: Cluster, i: int, p: int)
    requires Mesh(c) && i in c && p in c && i != p
  {
    MeshAt(c, i) && Enabled(c, a) &&
    match a
    case Elect(e) => e == i && StartElection(c, i).1 && InHeartbeats(Enthronement(c, i), i, c[i].peers, p, m)
    case Client(e, message) =>
      e == i && c[i].active && c[i].role == Leader &&
      InReplicate(c[i := c[i].(log := c[i].log + [LogEntry(c[i].term, message)])], i, c[i].peers, p, m)
    case Replicating(e) => e == i && c[i].role == Leader && InReplicate(c, i, c[i].peers, p, m)
    case Sync(e, l) => e == p && l == i && c[p].active && c[i].active && c[i].role == Leader && InRound(c, i, p, m)
    case _ => false
  }

  /** The sender leads, under the invariant, and no index it holds for p is past its log. */
  ghost predicate SoundSend(m: Cluster, h: History, i: int, p: int) {
    Inv(m, h) && i in m && p in m && m[i].role == Leader && NextOf(m[i], p) <= |m[i].log|
  }

  lemma NextInLog(c: Cluster, h: History, i: int, p: int)
    requires Inv(c, h) && i in c && p in c && i != p && c[i].role == Leader
    ensures SoundSend(c, h, i, p) && p in c[i].peers && MatchOk(h, c[i], p)
  {
    assert MeshAt(c, i) && ServerOk(h, i, c[i]);
  }

  lemma {:induction false} RoundSound(c: Cluster, h: History, i: int, p: int, m: Cluster) returns (h': History)
    requires Inv(c, h) && i in c && p in c && i != p && c[i].role == Leader && InRound(c, i, p, m)
    ensures SoundSend(m, h', i, p)
    decreases NextOf(c[i], p)
  {
    hide Inv, Advances, Append, Certified, LogOk, CommitOk, MeshAt, Mesh, HistoryGrows, ServerAdvances;
    h' := h;
    NextInLog(c, h, i, p);
    if m != c {
      var next := NextOf(c[i], p);
      h' := AppendOk(c, h, i, p, next);
      var c1 := c[p := Append(c, i, p, next).0];
      NextInLog(c1, h', i, p);
      var s' := Backed(c[i], p, next - 1);
      BeliefsOk(c1, h', i, p, s');
      h' := RoundSound(c1[i := s'], h', i, p, m);
    }
  }

  lemma ReplicateSound(c: Cluster, h: History, i: int, ps: seq<int>, p: int, m: Cluster) returns (h': History)
    requires Inv(c, h) && i in c && i !in ps && p in c && c[i].role == Leader && forall q | q in ps :: q in c
    requires InReplicate(c, i, ps, p, m)
    ensures SoundSend(m, h', i, p)
  {
    hide Inv, Advances, InRound;
    var k :| 0 <= k < |ps| && ps[k] == p && ReachesRound(c, i, ps[..k], p, m);
    h' := ReplicateOk(c, h, i, ps[..k]);
    h' := RoundSound(Replicate(c, i, ps[..k]), h', i, p, m);
  }

  lemma HeartbeatsSound(c: Cluster, h: History, i: int, p: int, m: Cluster) returns (h': History)
    requires Inv(c, h) && Mesh(c) && i in c && MeshAt(c, i) && p in c && i != p && StartElection(c, i).1
    requires c[i].term + 1 !in h.reigns
    requires InHeartbeats(Enthronement(c, i), i, c[i].peers, p, m)
    ensures SoundSend(m, h', i, p) && NextOf(m[i], p) == |m[i].log|
  {
    hide Inv, Advances, CollectVotes, Heartbeats;
    var ps := c[i].peers;
    var c2 := Enthronement(c, i);
    h' := EnthronementOk(c, h, i);
    var k :| 0 <= k < |ps| && ps[k] == p && BeatReaches(c2, i, ps[..k], p, m);
    forall q | q in ps[..k] ensures q in c2 && NextOf(c2[i], q) == |c2[i].log| {
      assert q in ps;
    }
    h' := HeartbeatsOk(c2, h', i, ps[..k]);
    NextInLog(m, h', i, p);
  }

  lemma EnthronementOk(c: Cluster, h: History, i: int) returns (h': History)
    requires Inv(c, h) && Mesh(c) && i in c && StartElection(c, i).1 && c[i].term + 1 !in h.reigns
    ensures var c2 := Enthronement(c, i);
            Inv(c2, h') && c2[i].role == Leader && forall q | q in c[i].peers :: NextOf(c2[i], q) == |c2[i].log|
  {
    hide Inv, Advances, Heartbeats, CollectVotes;
    Parts(c, h, i);
    var c0 := c[i := Candidacy(c[i], i)];
    KeepsRefl(c, h, i);
    Inert(c, h, i, c0[i]);
    var voters := CollectOk(c0, h, i, c[i].peers);
    var (c1, votes) := CollectVotes(c0, i, c[i].peers);
    VotersAreQuorum(c1, h, i, voters);
    Parts(c, h, i);
    Parts(c1, h, i);
    Win(c1, h, i, voters);
    h' := Enthroned(h, i, c1[i].term, c1[i].log);
  }

  lemma SendSound(c: Cluster, h: History, a: Action, m: Cluster, i: int, p: int) returns (g: History)
    requires Inv(c, h) && Mesh(c) && i in c && p in c && i != p && Sends(c, a, m, i, p) && StepSafe(c, h, a)
    ensures SoundSend(m, g, i, p) && (a.Elect? ==> NextOf(m[i], p) == |m[i].log|)
  {
    hide Inv, Advances, InRound, InReplicate, InHeartbeats, StartElection, Enthronement;
    g := h;
    match a
    case Elect(_) => g := HeartbeatsSound(c, h, i, p, m);
    case Client(_, message) =>
      Parts(c, h, i);
      Propose(c, h, i, message);
      var e := LogEntry(c[i].term, message);
      var c1 := c[i := c[i].(log := c[i].log + [e])];
      g := ReplicateSound(c1, Extended(h, i, c[i].term, e), i, c[i].peers, p, m);
    case Replicating(_) => g := ReplicateSound(c, h, i, c[i].peers, p, m);
    case Sync(_, _) => g := RoundSound(c, h, i, p, m);
    case _ =>
  }

  /** Whatever append a call of an admissible run sends, at whatever point of the call: the sender leads; the append
      cuts no committed entry of the receiver; and if it is accepted, the commit point it passes on covers only
      entries equal to the sender's. */
  lemma EveryAppendRespectsCommits(c0: Cluster, acts: seq<Action>, k: nat, m: Cluster, i: int, p: int)
    requires Admissible(c0, acts) && k < |acts| && i in c0 && p in c0 && i != p
    requires Sends(State(c0, acts, k), acts[k], m, i, p)
    ensures i in m && p in m && m[i].role == Leader && NextOf(m[i], p) <= |m[i].log|
    ensures acts[k].Elect? ==> NextOf(m[i], p) == |m[i].log|
    ensures RespectsCommits(m, i, p, NextOf(m[i], p))
  {
    hide Inv, Advances, Next, State, Sends, RespectsCommits;
    var hs := RunOk(c0, acts, k);
    CallAllowed(c0, acts, k, hs[k]);
    var g := SendSound(State(c0, acts, k), hs[k], acts[k], m, i, p);
    AppendRespects(m, g, i, p, NextOf(m[i], p));
  }
}
