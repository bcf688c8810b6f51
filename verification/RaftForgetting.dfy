/** Why recover() needs its condition: where a majority no longer remembers the leader of a term and one of them can
    still stand in it, the run can be continued to a second leader; elsewhere it cannot. */
module RaftForgetting {
  import opened RaftServer
  import opened RaftCluster
  import opened RaftInvariant
  import opened RaftCalls
  import opened RaftElections
  import opened RaftSafety
  import opened RaftHints
  import opened RaftProgress

  /** Server v is live and would vote for j in term t: it has not reached the term, or has no other vote in it,
      and j's log is at least as up to date. */
  predicate Free(c: Cluster, v: int, j: int, t: nat)
    requires v in c && j in c
  {
    c[v].active && c[v].term <= t && (c[v].term == t ==> c[v].votedFor == None || c[v].votedFor == Some(j)) &&
    UpToDate(|c[j].log| - 1, LastTerm(c[j].log), c[v].log)
  }

  /** Behind the term t, server j can gather a majority of free votes in it. */
  ghost predicate CanStand(c: Cluster, j: int, t: nat) {
    j in c && c[j].term < t && Quorum(c, FreeVotes(c, j, t)) && j in FreeVotes(c, j, t) && |c| >= 2
  }

  ghost function FreeVotes(c: Cluster, j: int, t: nat): set<int>
    requires j in c
  {
    set v | v in c && Free(c, v, j, t)
  }

  /** Only elections, partitions, heals, and recover() of servers in `forgetful`. */
  ghost predicate Harmless(acts: seq<Action>, forgetful: set<int>) {
    forall k | 0 <= k < |acts| ::
      acts[k].Elect? || acts[k].Partition? || acts[k].Heal? || (acts[k].Recover? && acts[k].i in forgetful)
  }

  // ---- raising the term alone ----

  lemma {:induction false} NobodyAnswers(c: Cluster, i: int, ps: seq<int>)
    requires i in c && forall p | p in ps :: p in c && !CanReach(c, i, p)
    ensures CollectVotes(c, i, ps) == (c, 1)
  {
    if ps != [] {
      NobodyAnswers(c, i, ps[..|ps| - 1]);
    }
  }

  lemma StandAlone(c: Cluster, i: int)
    requires Mesh(c) && i in c && c[i].active && |c| >= 2 && c[i].partitionedFrom == c.Keys
    ensures Next(c, Elect(i)) == c[i := c[i].(term := c[i].term + 1, votedFor := Some(i), role := Follower)]
  {
    hide CollectVotes;
    assert MeshAt(c, i);
    MeshSize(c, i);
    NobodyAnswers(c[i := Candidacy(c[i], i)], i, c[i].peers);
  }

  /** A server cut off from everyone raises its term by standing again and again. */
  lemma {:induction false} RaiseTerm(c: Cluster, i: int, t: nat) returns (acts: seq<Action>)
    requires Mesh(c) && i in c && c[i].active && |c| >= 2 && c[i].partitionedFrom == c.Keys && c[i].term <= t
    ensures Harmless(acts, {})
    ensures var d := Exec(c, acts);
            && d == c[i := d[i]] && d[i].term == t
            && d[i] == c[i].(term := t, votedFor := d[i].votedFor, role := d[i].role)
    decreases t - c[i].term
  {
    hide Next, Exec;
    if c[i].term == t {
      acts := [];
      ExecNone(c);
      assert c[i := c[i]] == c;
    } else {
      StandAlone(c, i);
      var c1 := Next(c, Elect(i));
      MeshStays(c, c1);
      var rest := RaiseTerm(c1, i, t);
      acts := [Elect(i)] + rest;
      ExecJoin(c, [Elect(i)], rest);
      ExecOne(c, Elect(i));
    }
  }

  // ---- healing everyone ----

  /** Only partitions changed. */
  ghost predicate OnlyPartitions(c: Cluster, d: Cluster) {
    d.Keys == c.Keys && forall v | v in c :: d[v] == c[v].(partitionedFrom := d[v].partitionedFrom)
  }

  lemma {:induction false} HealAll(c: Cluster, ids: set<int>) returns (acts: seq<Action>)
    requires Mesh(c) && ids <= c.Keys
    ensures Harmless(acts, {})
    ensures var d := Exec(c, acts); OnlyPartitions(c, d) && forall v | v in ids :: d[v].partitionedFrom == {}
    decreases ids
  {
    hide Mesh, MeshAt, Exec;
    if ids == {} {
      acts := [];
      ExecNone(c);
    } else {
      assert (forall v :: v !in ids) ==> ids == {};
      var v :| v in ids;
      var before := HealAll(c, ids - {v});
      acts := before + [Heal(v)];
      ExecJoin(c, before, [Heal(v)]);
      ExecOne(Exec(c, before), Heal(v));
    }
  }

  // ---- the second election ----

  lemma FreeVotesGrant(c: Cluster, j: int, t: nat)
    requires Mesh(c) && CanStand(c, j, t) && c[j].term + 1 == t
    requires forall v | v in c :: c[v].partitionedFrom == {}
    ensures RaftCluster.StartElection(c, j).1
  {
    var free := FreeVotes(c, j, t);
    assert MeshAt(c, j);
    MeshSize(c, j);
    forall v | v in free - {j} ensures v in GrantingPeers(c, j) {
      assert v in c[j].peers && Grants(c, j, v);
    }
    Within(free, GrantingPeers(c, j) + {j});
    ElectionWonIff(c, j);
  }

  /** If server j, behind term t, can gather a majority of free votes in it, then some elections, partitions and
      heals make j lead term t. */
  lemma FreeMajorityElects(c: Cluster, j: int, t: nat) returns (acts: seq<Action>)
    requires Mesh(c) && CanStand(c, j, t)
    ensures Harmless(acts, {}) && Leads(Exec(c, acts), j, t)
  {
    hide Next, StartElection, Mesh, Exec;
    var cut := [Partition(j, c.Keys)];
    ExecOne(c, cut[0]);
    var c1 := Exec(c, cut);
    NextPartitions(c, j, c.Keys);
    var raise := RaiseTerm(c1, j, t - 1);
    var c2 := Exec(c1, raise);
    var heal := HealAll(c2, c2.Keys);
    var c3 := Exec(c2, heal);
    StandsStill(c, c3, j, t);
    FreeVotesGrant(c3, j, t);
    WinnerTakesOffice(c3, j);
    acts := cut + (raise + (heal + [Elect(j)]));
    ExecJoin(c, cut, raise + (heal + [Elect(j)]));
    ExecJoin(c1, raise, heal + [Elect(j)]);
    ExecJoin(c2, heal, [Elect(j)]);
    ExecOne(c3, Elect(j));
  }

  lemma NextPartitions(c: Cluster, i: int, ids: set<int>)
    requires Mesh(c) && i in c
    ensures Next(c, Partition(i, ids)) == c[i := c[i].(partitionedFrom := ids)]
  {
  }

  /** Raising j's term to t - 1 and changing partitions leaves its free votes. */
  lemma StandsStill(c: Cluster, d: Cluster, j: int, t: nat)
    requires CanStand(c, j, t) && d.Keys == c.Keys && d[j].term == t - 1 && d[j].log == c[j].log && d[j].active
    requires forall v | v in c && v != j :: d[v] == c[v].(partitionedFrom := d[v].partitionedFrom)
    ensures CanStand(d, j, t)
  {
    assert |d| == |d.Keys| && |c| == |c.Keys|;
    assert FreeVotes(d, j, t) == FreeVotes(c, j, t);
  }

  // ---- recover() of servers that do not remember the leader ----

  /** The servers that could still be won over for j in term t: they do not remember its leader l, and j's log is at
      least as up to date. They may be down, or may have voted for somebody else. */
  ghost function Forgetful(c: Cluster, j: int, t: nat, l: int): set<int>
    requires j in c
  {
    set v | v in c && !Remembers(c[v], t, l) && UpToDate(|c[j].log| - 1, LastTerm(c[j].log), c[v].log)
  }

  /** Server j is behind term t and a majority could be won over. */
  ghost predicate CanTakeOver(c: Cluster, j: int, t: nat, l: int) {
    j in c && c[j].term < t && |c| >= 2 && Quorum(c, Forgetful(c, j, t, l))
  }

  /** The call does not clear a vote for l in term t. */
  predicate Spares(c: Cluster, a: Action, t: nat, l: int) {
    a.Recover? && a.i in c ==> !(c[a.i].term == t && c[a.i].votedFor == Some(l))
  }

  /** No call of the run does. */
  ghost predicate Sparing(c: Cluster, acts: seq<Action>, t: nat, l: int)
    requires Mesh(c)
  {
    forall k | 0 <= k < |acts| :: Spares(State(c, acts, k), acts[k], t, l)
  }

  lemma SparingJoin(c: Cluster, a: seq<Action>, b: seq<Action>, t: nat, l: int)
    requires Mesh(c) && Sparing(c, a, t, l) && Sparing(Exec(c, a), b, t, l)
    ensures Sparing(c, a + b, t, l)
  {
    hide Exec, Spares;
    forall k | 0 <= k < |a + b| ensures Spares(State(c, a + b, k), (a + b)[k], t, l) {
      if k < |a| {
        assert (a + b)[..k] == a[..k];
        assert Spares(State(c, a, k), a[k], t, l);
      } else {
        assert (a + b)[..k] == a + b[..k - |a|];
        ExecJoin(c, a, b[..k - |a|]);
        assert Spares(State(Exec(c, a), b, k - |a|), b[k - |a|], t, l);
      }
    }
  }

  lemma HarmlessSpares(c: Cluster, acts: seq<Action>, t: nat, l: int)
    requires Mesh(c) && Harmless(acts, {})
    ensures Sparing(c, acts, t, l)
  {
    hide State;
  }

  /** Bringing a set of servers back up. */
  lemma {:induction false} RecoverAll(c: Cluster, ids: set<int>, t: nat, l: int) returns (acts: seq<Action>)
    requires Mesh(c) && ids <= c.Keys && forall v | v in ids :: !Remembers(c[v], t, l)
    ensures Harmless(acts, ids) && Sparing(c, acts, t, l)
    ensures var d := Exec(c, acts);
            d.Keys == c.Keys && forall v | v in c :: d[v] == if v in ids then Recovered(c[v]) else c[v]
    decreases ids
  {
    hide Mesh, MeshAt, Exec, Recovered;
    if ids == {} {
      acts := [];
      ExecNone(c);
    } else {
      assert (forall v :: v !in ids) ==> ids == {};
      var v :| v in ids;
      var before := RecoverAll(c, ids - {v}, t, l);
      acts := before + [Recover(v)];
      ExecJoin(c, before, [Recover(v)]);
      var d := Exec(c, before);
      ExecOne(d, Recover(v));
      OneSparing(d, Recover(v), t, l);
      SparingJoin(c, before, [Recover(v)], t, l);
    }
  }

  lemma OneSparing(c: Cluster, a: Action, t: nat, l: int)
    requires Mesh(c) && Spares(c, a, t, l)
    ensures Sparing(c, [a], t, l)
  {
    hide Spares;
    assert [a][..0] == [];
  }

  /** Recovered, the forgetful servers are free to vote for j. */
  lemma ForgetfulAreFree(c: Cluster, d: Cluster, j: int, t: nat, l: int)
    requires CanTakeOver(c, j, t, l) && d.Keys == c.Keys
    requires forall v | v in c :: d[v] == if v in Forgetful(c, j, t, l) then Recovered(c[v]) else c[v]
    ensures CanStand(d, j, t)
  {
    assert |d| == |d.Keys| == |c.Keys| == |c|;
    Within(Forgetful(c, j, t, l), FreeVotes(d, j, t));
  }

  /** A server behind term t that a majority of servers that do not remember l could follow can be brought to lead t. */
  lemma TakesOver(c: Cluster, j: int, t: nat, l: int) returns (acts: seq<Action>)
    requires Mesh(c) && CanTakeOver(c, j, t, l)
    ensures Harmless(acts, Forgetful(c, j, t, l)) && Sparing(c, acts, t, l) && Leads(Exec(c, acts), j, t)
  {
    hide Exec, Leads, Mesh, MeshAt, CanStand, State, Spares;
    var up := RecoverAll(c, Forgetful(c, j, t, l), t, l);
    var d := Exec(c, up);
    ForgetfulAreFree(c, d, j, t, l);
    var stand := FreeMajorityElects(d, j, t);
    acts := up + stand;
    ExecJoin(c, up, stand);
    HarmlessSpares(d, stand, t, l);
    SparingJoin(c, up, stand, t, l);
  }

  /** The failing family of recover(): a server l has led term t, and now some server behind t could be followed by a
      majority of servers that do not remember it. Then elections, partitions, heals and recover() of such servers
      continue the run to a second leader of that term. */
  lemma ForgottenTermLedTwice(c0: Cluster, acts: seq<Action>, m: nat, l: int, j: int, t: nat)
    returns (more: seq<Action>)
    requires Mesh(c0) && m <= |acts| && Leads(State(c0, acts, m), l, t)
    requires CanTakeOver(State(c0, acts, |acts|), j, t, l)
    ensures Harmless(more, Forgetful(State(c0, acts, |acts|), j, t, l)) && l != j
    ensures Leads(State(c0, acts + more, m), l, t) && Leads(State(c0, acts + more, |acts + more|), j, t)
  {
    hide Exec, Leads;
    assert acts[..|acts|] == acts;
    LeaderReached(c0, acts, m, l, t);
    more := TakesOver(Exec(c0, acts), j, t, l);
    ExecJoin(c0, acts, more);
    assert (acts + more)[..m] == acts[..m] && (acts + more)[..|acts + more|] == acts + more;
  }

  /** A server that has led t is not behind t. */
  lemma LeaderReached(c0: Cluster, acts: seq<Action>, m: nat, l: int, t: nat)
    requires Mesh(c0) && m <= |acts| && Leads(State(c0, acts, m), l, t)
    ensures l in c0 && t <= State(c0, acts, |acts|)[l].term
  {
    hide State;
    TermsRise(c0, acts, m, |acts|, l);
  }

  // ---- exactly when ----

  /** Some server behind t is at least as up to date as every server that does not remember l. */
  ghost predicate Standby(c: Cluster, j: int, t: nat, l: int) {
    j in c && c[j].term < t &&
    forall v | v in c && !Remembers(c[v], t, l) :: UpToDate(|c[j].log| - 1, LastTerm(c[j].log), c[v].log)
  }

  /** Some run in which no recover() clears a vote for l in term t makes another server lead it. */
  ghost predicate SecondLeaderReachable(c: Cluster, t: nat, l: int)
    requires Mesh(c)
  {
    exists acts, j :: Sparing(c, acts, t, l) && j != l && Leads(Exec(c, acts), j, t)
  }

  lemma UnsealedCanTakeOver(c: Cluster, j: int, t: nat, l: int)
    requires |c| >= 2 && Standby(c, j, t, l) && !Sealed(c, t, l)
    ensures CanTakeOver(c, j, t, l)
  {
    var r := Remember(c, t, l);
    var rest := c.Keys - r;
    forall v | v in rest ensures v in Forgetful(c, j, t, l) {
      assert !Remembers(c[v], t, l);
    }
    Within(rest, Forgetful(c, j, t, l));
    assert |rest| == |c.Keys| - |r| && |c.Keys| == |c|;
  }

  lemma {:induction false} SealedForGood(c: Cluster, acts: seq<Action>, t: nat, l: int, j: int)
    requires Mesh(c) && Sealed(c, t, l) && Sparing(c, acts, t, l)
    requires j != l && !Leads(c, j, t)
    ensures Sealed(Exec(c, acts), t, l) && !Leads(Exec(c, acts), j, t)
    decreases |acts|
  {
    hide Exec, Sealed, Leads, Spares;
    if acts == [] {
      ExecNone(c);
    } else {
      var before, a := acts[..|acts| - 1], acts[|acts| - 1];
      var d := Exec(c, before);
      SparingFirst(c, acts, t, l);
      SealedForGood(c, before, t, l, j);
      ExecJoin(c, before, [a]);
      ExecOne(d, a);
      assert before + [a] == acts;
      SealedStep(d, a, t, l, j);
    }
  }

  lemma SparingFirst(c: Cluster, acts: seq<Action>, t: nat, l: int)
    requires Mesh(c) && Sparing(c, acts, t, l) && acts != []
    ensures Sparing(c, acts[..|acts| - 1], t, l)
    ensures Spares(Exec(c, acts[..|acts| - 1]), acts[|acts| - 1], t, l)
  {
    hide Exec, Spares;
    var before := acts[..|acts| - 1];
    forall k | 0 <= k < |before| ensures Spares(State(c, before, k), before[k], t, l) {
      assert before[..k] == acts[..k];
      assert Spares(State(c, acts, k), acts[k], t, l);
    }
    assert Spares(State(c, acts, |acts| - 1), acts[|acts| - 1], t, l);
  }

  lemma SealedStep(c: Cluster, a: Action, t: nat, l: int, j: int)
    requires Mesh(c) && Sealed(c, t, l) && Spares(c, a, t, l) && j != l && !Leads(c, j, t)
    ensures Sealed(Next(c, a), t, l) && !Leads(Next(c, a), j, t)
  {
    hide StartElection, Sealed, VotesStep;
    if a.Recover? {
      if a.i in c {
        RecoverSpares(c, a.i, t, l);
      }
    } else {
      CallVotes(c, a);
      SealedStays(c, Next(c, a), t, l, RaceOf(c, a));
    }
    if Leads(Next(c, a), j, t) {
      TookOffice(c, a, j, t);
      NoSecondWinner(c, j, l);
      assert false;
    }
  }

  /** Where a server behind t is at least as up to date as every server that does not remember the vote for its leader
      l, a second leader of t is within reach, without another recover() that clears such a vote, if and only if t is
      not sealed. */
  lemma SecondLeaderIff(c0: Cluster, acts: seq<Action>, m: nat, l: int, j: int, t: nat)
    requires Mesh(c0) && m <= |acts| && Leads(State(c0, acts, m), l, t)
    requires Standby(State(c0, acts, |acts|), j, t, l)
    requires forall i | i != l :: !Leads(State(c0, acts, |acts|), i, t)
    ensures SecondLeaderReachable(State(c0, acts, |acts|), t, l) <==> !Sealed(State(c0, acts, |acts|), t, l)
  {
    hide State, Exec, Leads, Sealed, Sparing;
    var c := State(c0, acts, |acts|);
    LeaderReached(c0, acts, m, l, t);
    if Sealed(c, t, l) {
      forall more, i | Sparing(c, more, t, l) && i != l ensures !Leads(Exec(c, more), i, t) {
        SealedForGood(c, more, t, l, i);
      }
    } else {
      TwoServers(c, j, l);
      UnsealedCanTakeOver(c, j, t, l);
      var more := TakesOver(c, j, t, l);
    }
  }

  lemma TwoServers(c: Cluster, j: int, l: int)
    requires j in c && l in c && j != l
    ensures |c| >= 2
  {
    Within({j, l}, c.Keys);
    assert |c| == |c.Keys|;
  }
}
