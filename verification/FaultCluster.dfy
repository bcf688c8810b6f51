/** Runs of a cluster of fault-tolerance managers. No message accepted from a client is lost, whatever the network
    answers, however the liveness marks flip, and in whatever order handlers, retries and pulls happen. */
module FaultCluster {
  import opened FailureDetection
  import opened FaultStore

  type Cluster = map<string, Node>

  /** What the network does during one handler: the (peer, id) pairs that reach their peer, and those among them
      whose caller hears True. */
  datatype Net = Net(reached: Queue, answers: Queue)

  datatype Step =
    | Submit(node: string, message: ChatMessage, net: Net)                  // handle_client_message
    | Retry(node: string, net: Net)                                         // one turn of _retry_loop
    | PeerBack(node: string, peer: string, net: Net)                        // _on_peer_recovered
    | Pull(node: string, fetched: map<string, seq<ChatMessage>>)            // recover_from_peers
    | Late(sender: string, receiver: string, id: string)                    // a push whose caller has given up
    | Liveness(node: string, status: map<string, bool>)                     // any change of the detector's marks

  // ---- one step ----

  /** The peers handle the pushes that reach them. */
  function Deliver(c: Cluster, rows: Table, sent: Queue): (d: Cluster)
    ensures d.Keys == c.Keys
  {
    map p | p in c :: c[p].(store := Stored(c[p].store, rows, QueuedFor(sent, p)))
  }

  function Stored(store: Table, rows: Table, ids: set<string>): Table {
    (map id | id in ids && id in rows && id != "" :: rows[id]) + store
  }

  /** handle_replica_message at the peer, once for each id in turn. */
  function Replicas(store: Table, rows: Table, ids: seq<string>): Table {
    if ids == [] then store
    else
      var before := Replicas(store, rows, ids[..|ids| - 1]);
      var id := ids[|ids| - 1];
      if id in rows then HandleReplica(before, rows[id]) else before
  }

  /** In whatever order, and however often, the pushes of one handler arrive, the peer's table ends the same. */
  lemma {:induction false} StoredIsReplicas(store: Table, rows: Table, ids: seq<string>)
    requires forall id <- rows :: rows[id].id == id
    ensures Replicas(store, rows, ids) == Stored(store, rows, Members(ids))
  {
    if ids == [] {
      assert Stored(store, rows, {}) == store;
    } else {
      hide Stored, HandleReplica;
      var before, id := ids[..|ids| - 1], ids[|ids| - 1];
      StoredIsReplicas(store, rows, before);
      assert ids == before + [id];
      assert Members(ids) == Members(before) + {id};
      StoredNext(store, rows, Members(before), id);
    }
  }

  lemma StoredNext(store: Table, rows: Table, ids: set<string>, id: string)
    requires forall id <- rows :: rows[id].id == id
    ensures Stored(store, rows, ids + {id}) ==
      if id in rows then HandleReplica(Stored(store, rows, ids), rows[id]) else Stored(store, rows, ids)
  {
    hide Stored;
    StoredRows(store, rows, ids);
    StoredRows(store, rows, ids + {id});
  }

  ghost predicate Enabled(c: Cluster, s: Step) {
    match s
    case Submit(n, m, net) => n in c && net.answers <= net.reached
    case Retry(n, net) => n in c && net.answers <= net.reached
    case PeerBack(n, p, net) => n in c && net.answers <= net.reached
    case Pull(n, fetched) => n in c && forall p <- fetched :: p in c && Lists(fetched[p], c[p].store)
    case Late(a, b, id) => a in c && b in c && id in c[a].store
    case Liveness(n, status) => n in c
  }

  function Sends(c: Cluster, n: string, targets: set<string>, net: Net): Cluster
    requires n in c
  {
    Deliver(c[n := c[n].(pending := AfterRetry(c[n], targets, net.answers))], c[n].store,
            RetrySends(c[n], targets) * net.reached)
  }

  ghost function Next(c: Cluster, s: Step): Cluster
    requires Enabled(c, s)
  {
    match s
    case Submit(n, m, net) =>
      var (after, _, tried) := HandleClient(c[n], m, net.answers);
      Deliver(c[n := after], after.store, (set p | p in tried :: (p, m.id)) * net.reached)
    case Retry(n, net) => Sends(c, n, Members(LivePeers(c[n].peers, c[n].status)), net)
    case PeerBack(n, p, net) => Sends(c, n, {p}, net)
    case Pull(n, fetched) => c[n := c[n].(store := Pulled(c[n].store, c[n].peers, fetched))]
    case Late(a, b, id) => Deliver(c, c[a].store, {(b, id)})
    case Liveness(n, status) => c[n := c[n].(status := status)]
  }

  // ---- runs ----

  ghost predicate RunOk(c: Cluster, run: seq<Step>) {
    run == [] || (RunOk(c, run[..|run| - 1]) && Enabled(Exec(c, run[..|run| - 1]), run[|run| - 1]))
  }

  ghost function Exec(c: Cluster, run: seq<Step>): Cluster {
    if run == [] then c
    else
      var before := Exec(c, run[..|run| - 1]);
      if Enabled(before, run[|run| - 1]) then Next(before, run[|run| - 1]) else before
  }

  /** The (node, id) pairs for which a client was told stored_and_replicated during the run. */
  ghost function Accepted(c: Cluster, run: seq<Step>): Queue {
    if run == [] then {}
    else Accepted(c, run[..|run| - 1]) + Accepts(Exec(c, run[..|run| - 1]), run[|run| - 1])
  }

  ghost function Accepts(c: Cluster, s: Step): Queue {
    if s.Submit? && s.node in c && HandleClient(c[s.node], s.message, s.net.answers).1.StoredAndReplicated?
    then {(s.node, s.message.id)} else {}
  }

  /** Empty tables and the replication factor that node/server.py sets: every peer and the node itself. */
  predicate Fresh(c: Cluster) {
    forall n <- c :: c[n].store == map[] && c[n].pending == {} && PeersKnown(c, n)
  }

  predicate PeersKnown(c: Cluster, n: string)
    requires n in c
  {
    c[n].factor == |c[n].peers| + 1 && forall p <- c[n].peers :: p in c
  }

  predicate FullMesh(c: Cluster) {
    forall a <- c, b <- c | a != b :: b in c[a].peers
  }

  predicate Idle(c: Cluster) {
    forall n <- c :: c[n].pending == {}
  }

  // ---- the invariant ----

  /** Peer p holds the message or node a still has it queued for p. */
  predicate Kept(c: Cluster, a: string, p: string, id: string)
    requires a in c && p in c
  {
    id in c[p].store || (p, id) in c[a].pending
  }

  ghost predicate NodeOk(c: Cluster, n: string)
    requires n in c
  {
    PeersKnown(c, n) &&
    (forall id <- c[n].store :: c[n].store[id].id == id && id != "") &&
    (forall e <- c[n].pending :: e.0 in c[n].peers && e.1 in c[n].store)
  }

  ghost predicate PairOk(c: Cluster, e: (string, string)) {
    e.0 in c && e.1 in c[e.0].store && forall p <- c[e.0].peers :: p in c && Kept(c, e.0, p, e.1)
  }

  ghost predicate Sourced(acc: Queue, id: string) {
    exists a :: (a, id) in acc
  }

  ghost predicate Inv(c: Cluster, acc: Queue) {
    (forall n <- c :: NodeOk(c, n)) &&
    (forall e <- acc :: PairOk(c, e)) &&
    (forall n <- c, id <- c[n].store :: Sourced(acc, id))
  }

  // ---- every step keeps it ----

  lemma StoredRows(store: Table, rows: Table, ids: set<string>)
    ensures var r := Stored(store, rows, ids);
      (forall id :: id in r <==> id in store || (id in ids && id in rows && id != "")) &&
      (forall id <- store :: r[id] == store[id]) && (forall id <- r :: id !in store ==> r[id] == rows[id])
  {
  }

  /** Node n, now `after`, sends; every other node only gains rows. */
  lemma DeliverEffect(c: Cluster, n: string, after: Node, sent: Queue, p: string)
    requires n in c && p in c
    ensures var d := Deliver(c[n := after], after.store, sent);
      var was := if p == n then after else c[p];
      d.Keys == c.Keys && d[p] == was.(store := d[p].store) &&
      (forall id :: id in d[p].store <==> id in was.store || ((p, id) in sent && id in after.store && id != "")) &&
      (forall id <- was.store :: d[p].store[id] == was.store[id]) &&
      (forall id <- d[p].store :: id !in was.store ==> d[p].store[id] == after.store[id])
  {
    hide Stored;
    StoredRows(if p == n then after.store else c[p].store, after.store, QueuedFor(sent, p));
  }

  /** The node itself may change like this during a step. */
  ghost predicate Advances(c: Cluster, n: string, after: Node)
    requires n in c
  {
    after.peers == c[n].peers && after.factor == c[n].factor &&
    (forall id <- c[n].store :: id in after.store && after.store[id] == c[n].store[id]) &&
    (forall id <- after.store :: after.store[id].id == id && id != "") &&
    (forall e <- after.pending :: e.0 in after.peers && e.1 in after.store)
  }

  /** Once the step is over, p holds the message or node n has it queued for p. */
  predicate Reaches(c: Cluster, after: Node, sent: Queue, p: string, id: string) {
    (p in c && id in c[p].store) || (p, id) in after.pending || (p, id) in sent
  }

  lemma DeliveryKeeps(c: Cluster, acc: Queue, n: string, after: Node, sent: Queue, more: Queue)
    requires Inv(c, acc) && n in c && Advances(c, n, after)
    requires forall id <- after.store :: Sourced(acc + more, id)
    requires forall id, p | (n, id) in acc && p in after.peers :: Reaches(c, after, sent, p, id)
    requires forall e <- more ::
      e.0 == n && e.1 in after.store && forall p <- after.peers :: Reaches(c, after, sent, p, e.1)
    ensures Inv(Deliver(c[n := after], after.store, sent), acc + more)
  {
    hide Deliver;
    var d := Deliver(c[n := after], after.store, sent);
    forall a | a in c
      ensures a in d && NodeOk(d, a)
    {
      DeliveredNodeOk(c, acc, n, after, sent, a);
    }
    DeliverEffect(c, n, after, sent, n);
    forall e | e in acc + more
      ensures PairOk(d, e)
    {
      DeliveredPairOk(c, acc, n, after, sent, more, e);
    }
    forall a, id | a in d && id in d[a].store
      ensures Sourced(acc + more, id)
    {
      DeliverEffect(c, n, after, sent, a);
      if id !in after.store {
        assert id in c[a].store;
        SourcedGrows(acc, more, id);
      }
    }
  }

  lemma SourcedGrows(acc: Queue, more: Queue, id: string)
    requires Sourced(acc, id)
    ensures Sourced(acc + more, id)
  {
    var a :| (a, id) in acc;
    assert (a, id) in acc + more;
  }

  lemma DeliveredNodeOk(c: Cluster, acc: Queue, n: string, after: Node, sent: Queue, a: string)
    requires Inv(c, acc) && n in c && Advances(c, n, after) && a in c
    ensures var d := Deliver(c[n := after], after.store, sent); a in d && NodeOk(d, a)
  {
    hide Deliver;
    DeliverEffect(c, n, after, sent, a);
    assert NodeOk(c, a);
  }

  lemma DeliveredPairOk(c: Cluster, acc: Queue, n: string, after: Node, sent: Queue, more: Queue, e: (string, string))
    requires Inv(c, acc) && n in c && Advances(c, n, after) && e in acc + more
    requires forall id, p | (n, id) in acc && p in after.peers :: Reaches(c, after, sent, p, id)
    requires forall e <- more ::
      e.0 == n && e.1 in after.store && forall p <- after.peers :: Reaches(c, after, sent, p, e.1)
    ensures PairOk(Deliver(c[n := after], after.store, sent), e)
  {
    hide Deliver;
    var d := Deliver(c[n := after], after.store, sent);
    assert e in acc ==> PairOk(c, e);
    DeliverEffect(c, n, after, sent, e.0);
    assert NodeOk(c, n) && NodeOk(c, e.0);
    forall p | p in d[e.0].peers
      ensures p in d && Kept(d, e.0, p, e.1)
    {
      DeliverEffect(c, n, after, sent, p);
    }
  }

  lemma DeliverNothing(c: Cluster, rows: Table)
    ensures Deliver(c, rows, {}) == c
  {
    forall p | p in c
      ensures Deliver(c, rows, {})[p] == c[p]
    {
      StoredRows(c[p].store, rows, QueuedFor({}, p));
      assert Stored(c[p].store, rows, QueuedFor({}, p)) == c[p].store;
    }
  }

  lemma SubmitKeeps(c: Cluster, acc: Queue, n: string, m: ChatMessage, net: Net)
    requires Inv(c, acc) && Enabled(c, Submit(n, m, net))
    ensures Inv(Next(c, Submit(n, m, net)), acc + Accepts(c, Submit(n, m, net)))
  {
    hide Deliver, HandleClient, Reaches;
    var (after, reply, tried) := HandleClient(c[n], m, net.answers);
    var sent := (set p | p in tried :: (p, m.id)) * net.reached;
    var more := Accepts(c, Submit(n, m, net));
    assert NodeOk(c, n);
    SubmitEffect(c[n], m, net.answers);
    forall id, p | (n, id) in acc && p in after.peers
      ensures Reaches(c, after, sent, p, id)
    {
      assert PairOk(c, (n, id));
      StillReaches(c, n, after, sent, p, id);
    }
    forall e, p | e in more && p in after.peers
      ensures Reaches(c, after, sent, p, e.1)
    {
      NewReaches(c, n, m, net, p);
    }
    forall id | id in after.store
      ensures Sourced(acc + more, id)
    {
      if id in c[n].store {
        SourcedGrows(acc, more, id);
      } else {
        assert (n, id) in acc + more;
      }
    }
    DeliveryKeeps(c, acc, n, after, sent, more);
  }

  lemma StillReaches(c: Cluster, n: string, after: Node, sent: Queue, p: string, id: string)
    requires n in c && p in c && Kept(c, n, p, id) && c[n].pending <= after.pending
    ensures Reaches(c, after, sent, p, id)
  {
  }

  lemma NewReaches(c: Cluster, n: string, m: ChatMessage, net: Net, p: string)
    requires Enabled(c, Submit(n, m, net)) && PeersKnown(c, n) && p in c[n].peers
    requires HandleClient(c[n], m, net.answers).1.StoredAndReplicated?
    ensures var (after, _, tried) := HandleClient(c[n], m, net.answers);
      Reaches(c, after, (set p | p in tried :: (p, m.id)) * net.reached, p, m.id)
  {
    hide PushLive, LivePeers;
    PeerCovered(c[n], m, net.answers, p);
    var (after, _, tried) := HandleClient(c[n], m, net.answers);
    if p in tried && (p, m.id) in net.answers {
      assert (p, m.id) in (set p | p in tried :: (p, m.id)) * net.reached;
    }
  }

  /** What handle_client_message changes in the node itself. */
  lemma SubmitEffect(n: Node, m: ChatMessage, answers: Queue)
    ensures var (after, reply, tried) := HandleClient(n, m, answers);
      after == n.(store := after.store, pending := after.pending) &&
      n.pending <= after.pending &&
      (forall e <- after.pending :: e in n.pending || (e.0 in n.peers && e.1 in after.store)) &&
      after.store == (if reply.StoredAndReplicated? then n.store[m.id := m] else n.store) &&
      (reply.StoredAndReplicated? ==> m.id != "" && m.id !in n.store)
  {
    hide PushLive, LivePeers;
    var live := LivePeers(n.peers, n.status);
    PushLiveCovers(live, n.factor - 1, m.id, n.pending, answers, "");
    PushLiveQueues(live, n.factor - 1, m.id, n.pending, answers);
  }

  lemma SendsKeep(c: Cluster, acc: Queue, n: string, targets: set<string>, net: Net)
    requires Inv(c, acc) && n in c && net.answers <= net.reached
    ensures Inv(Sends(c, n, targets, net), acc)
  {
    hide Deliver;
    var after := c[n].(pending := AfterRetry(c[n], targets, net.answers));
    var sent := RetrySends(c[n], targets) * net.reached;
    assert NodeOk(c, n);
    forall id, p | (n, id) in acc && p in after.peers
      ensures Reaches(c, after, sent, p, id)
    {
      assert PairOk(c, (n, id));
      assert Kept(c, n, p, id);
    }
    assert acc + {} == acc;
    DeliveryKeeps(c, acc, n, after, sent, {});
  }

  lemma PullKeeps(c: Cluster, acc: Queue, n: string, fetched: map<string, seq<ChatMessage>>)
    requires Inv(c, acc) && Enabled(c, Pull(n, fetched))
    ensures Inv(Next(c, Pull(n, fetched)), acc)
  {
    hide Deliver, Pulled;
    var after := c[n].(store := Pulled(c[n].store, c[n].peers, fetched));
    assert NodeOk(c, n);
    PulledRows(c, c[n].store, c[n].peers, fetched);
    forall id | id in after.store
      ensures after.store[id].id == id && id != "" && Sourced(acc, id)
    {
      if id !in c[n].store {
        var p :| p in c && id in c[p].store && c[p].store[id] == after.store[id];
        assert NodeOk(c, p);
      }
    }
    forall id, p | (n, id) in acc && p in after.peers
      ensures Reaches(c, after, {}, p, id)
    {
      assert PairOk(c, (n, id));
      assert Kept(c, n, p, id);
    }
    assert acc + {} == acc;
    DeliverNothing(c[n := after], after.store);
    DeliveryKeeps(c, acc, n, after, {}, {});
  }

  /** A pull keeps every row and adds only rows that some peer holds. */
  lemma {:induction false} PulledRows(c: Cluster, store: Table, peers: seq<string>,
                                      fetched: map<string, seq<ChatMessage>>)
    requires forall p <- fetched :: p in c && Lists(fetched[p], c[p].store)
    requires forall p <- c, id <- c[p].store :: c[p].store[id].id == id
    ensures var r := Pulled(store, peers, fetched);
      (forall id <- store :: id in r && r[id] == store[id]) &&
      (forall id <- r :: id !in store ==> exists p :: p in c && id in c[p].store && c[p].store[id] == r[id])
  {
    if peers != [] {
      var p := peers[|peers| - 1];
      var before := Pulled(store, peers[..|peers| - 1], fetched);
      PulledRows(c, store, peers[..|peers| - 1], fetched);
      if p in fetched {
        MergeAddsMissing(before, fetched[p]);
        forall id | id in Merged(before, fetched[p]) && id !in before
          ensures id in c[p].store && c[p].store[id] == Merged(before, fetched[p])[id]
        {
          MergedRow(before, fetched[p], c[p].store, id);
        }
      }
    }
  }

  lemma MergedRow(store: Table, all: seq<ChatMessage>, rows: Table, id: string)
    requires Lists(all, rows) && (forall i <- rows :: rows[i].id == i) && id in Merged(store, all) && id !in store
    ensures id in rows && rows[id] == Merged(store, all)[id]
  {
    MergeInventsNothing(store, all, id);
    MergedKey(store, all, id);
  }

  lemma {:induction false} MergedKey(store: Table, all: seq<ChatMessage>, id: string)
    requires id in Merged(store, all) && id !in store
    ensures Merged(store, all)[id].id == id
  {
    if all != [] && id in Merged(store, all[..|all| - 1]) {
      MergedKey(store, all[..|all| - 1], id);
    }
  }

  lemma OthersKeep(c: Cluster, acc: Queue, s: Step)
    requires Inv(c, acc) && Enabled(c, s) && (s.Late? || s.Liveness?)
    ensures Inv(Next(c, s), acc)
  {
    hide Deliver;
    var n := if s.Late? then s.sender else s.node;
    var after := if s.Late? then c[n] else c[n].(status := s.status);
    var sent := if s.Late? then {(s.receiver, s.id)} else {};
    assert NodeOk(c, n);
    forall id, p | (n, id) in acc && p in after.peers
      ensures Reaches(c, after, sent, p, id)
    {
      assert PairOk(c, (n, id));
      assert Kept(c, n, p, id);
    }
    assert acc + {} == acc && c[n := c[n]] == c;
    DeliverNothing(c[n := after], after.store);
    DeliveryKeeps(c, acc, n, after, sent, {});
  }

  lemma StepKeeps(c: Cluster, acc: Queue, s: Step)
    requires Inv(c, acc) && Enabled(c, s)
    ensures Inv(Next(c, s), acc + Accepts(c, s))
  {
    hide Inv, Sends, Deliver;
    assert !s.Submit? ==> acc + Accepts(c, s) == acc;
    match s
    case Submit(n, m, net) => SubmitKeeps(c, acc, n, m, net);
    case Retry(n, net) => SendsKeep(c, acc, n, Members(LivePeers(c[n].peers, c[n].status)), net);
    case PeerBack(n, p, net) => SendsKeep(c, acc, n, {p}, net);
    case Pull(n, fetched) => PullKeeps(c, acc, n, fetched);
    case Late(_, _, _) => OthersKeep(c, acc, s);
    case Liveness(_, _) => OthersKeep(c, acc, s);
  }

  lemma {:induction false} RunKeeps(c: Cluster, run: seq<Step>)
    requires Fresh(c) && RunOk(c, run)
    ensures Inv(Exec(c, run), Accepted(c, run))
  {
    if run != [] {
      hide Inv;
      RunKeeps(c, run[..|run| - 1]);
      StepKeeps(Exec(c, run[..|run| - 1]), Accepted(c, run[..|run| - 1]), run[|run| - 1]);
    }
  }

  lemma {:induction false} PeersStay(c: Cluster, run: seq<Step>)
    requires RunOk(c, run)
    ensures Exec(c, run).Keys == c.Keys && forall a <- c :: Exec(c, run)[a].peers == c[a].peers
  {
    if run != [] {
      hide Enabled, Next;
      PeersStay(c, run[..|run| - 1]);
      StepPeers(Exec(c, run[..|run| - 1]), run[|run| - 1]);
    }
  }

  lemma StepPeers(c: Cluster, s: Step)
    requires Enabled(c, s)
    ensures Next(c, s).Keys == c.Keys && forall a <- c :: Next(c, s)[a].peers == c[a].peers
  {
    hide HandleClient, Pulled, Stored, AfterRetry, RetrySends;
    if s.Submit? {
      SubmitEffect(c[s.node], s.message, s.net.answers);
    }
  }

  // ---- theorems ----

  /** In every run, a message id accepted by node a from a client is in a's own table and, for each peer of a, in
      that peer's table or still queued for it. */
  lemma NoMessageLost(c: Cluster, run: seq<Step>, a: string, id: string)
    requires Fresh(c) && RunOk(c, run) && (a, id) in Accepted(c, run)
    ensures var d := Exec(c, run);
      a in d && id in d[a].store && forall p <- d[a].peers :: p in d && Kept(d, a, p, id)
  {
    RunKeeps(c, run);
    assert PairOk(Exec(c, run), (a, id));
  }

  /** Whatever a node has accepted from a client it answers as a duplicate from then on, whatever else the message says,
      and it changes nothing and asks nobody. */
  lemma AcceptedOnce(c: Cluster, run: seq<Step>, a: string, m: Incoming, answers: Queue)
    requires Fresh(c) && RunOk(c, run) && !Incomplete(m) && (a, m.id.value) in Accepted(c, run)
    ensures var d := Exec(c, run); a in d && HandleSubmission(d[a], m, answers) == (d[a], Duplicate, [])
  {
    hide Exec, HandleSubmission;
    var d := Exec(c, run);
    RunKeeps(c, run);
    assert PairOk(d, (a, m.id.value)) && NodeOk(d, a);
    ReplyExactly(d[a], m, answers);
  }

  /** In a full mesh with nothing queued, all tables hold the same ids: exactly those accepted from clients. */
  lemma IdleStoresAgree(c: Cluster, run: seq<Step>, a: string)
    requires Fresh(c) && RunOk(c, run) && FullMesh(c) && Idle(Exec(c, run)) && a in Exec(c, run)
    ensures forall id :: id in Exec(c, run)[a].store <==> Sourced(Accepted(c, run), id)
  {
    RunKeeps(c, run);
    PeersStay(c, run);
    IdleHoldsAll(Exec(c, run), Accepted(c, run), a);
  }

  // ---- contents ----

  ghost predicate Submitted(run: seq<Step>, m: ChatMessage) {
    exists s :: s in run && s.Submit? && s.message == m
  }

  /** Clients never reuse an id for another message. */
  ghost predicate IdsUnique(run: seq<Step>) {
    forall m, k | Submitted(run, m) && Submitted(run, k) :: m.id == k.id ==> m == k
  }

  ghost predicate RowsFrom(c: Cluster, run: seq<Step>) {
    forall n <- c, id <- c[n].store :: Submitted(run, c[n].store[id])
  }

  /** Where a row of the next state comes from. */
  lemma RowOrigin(c: Cluster, acc: Queue, s: Step, p: string, id: string)
    requires Inv(c, acc) && Enabled(c, s) && p in Next(c, s) && id in Next(c, s)[p].store
    ensures (exists q :: q in c && id in c[q].store && c[q].store[id] == Next(c, s)[p].store[id])
      || (s.Submit? && s.message == Next(c, s)[p].store[id])
  {
    hide Deliver, HandleClient, Pulled;
    match s
    case Submit(n, m, net) =>
      SubmitEffect(c[n], m, net.answers);
      var (after, _, tried) := HandleClient(c[n], m, net.answers);
      DeliverEffect(c, n, after, (set p | p in tried :: (p, m.id)) * net.reached, p);
    case Retry(n, net) =>
      var targets := Members(LivePeers(c[n].peers, c[n].status));
      DeliverEffect(c, n, c[n].(pending := AfterRetry(c[n], targets, net.answers)),
                    RetrySends(c[n], targets) * net.reached, p);
    case PeerBack(n, q, net) =>
      DeliverEffect(c, n, c[n].(pending := AfterRetry(c[n], {q}, net.answers)), RetrySends(c[n], {q}) * net.reached, p);
    case Pull(n, fetched) =>
      assert forall q <- c :: NodeOk(c, q);
      PulledRows(c, c[n].store, c[n].peers, fetched);
    case Late(a, b, i) =>
      assert c[a := c[a]] == c;
      DeliverEffect(c, a, c[a], {(b, i)}, p);
    case Liveness(n, status) =>
  }

  lemma RowSubmitted(c: Cluster, run: seq<Step>, m: ChatMessage)
    requires run != [] && RowsFrom(c, run[..|run| - 1])
    requires (exists q, id :: q in c && id in c[q].store && c[q].store[id] == m)
      || (run[|run| - 1].Submit? && run[|run| - 1].message == m)
    ensures Submitted(run, m)
  {
    if run[|run| - 1].Submit? && run[|run| - 1].message == m {
      assert run[|run| - 1] in run;
    } else {
      var q, id :| q in c && id in c[q].store && c[q].store[id] == m;
      assert Submitted(run[..|run| - 1], m);
      var s :| s in run[..|run| - 1] && s.Submit? && s.message == m;
      assert s in run;
    }
  }

  lemma {:induction false} RowsWereSubmitted(c: Cluster, run: seq<Step>)
    requires Fresh(c) && RunOk(c, run)
    ensures RowsFrom(Exec(c, run), run)
  {
    if run != [] {
      hide Next, Inv, Fresh, Enabled;
      var before, s := run[..|run| - 1], run[|run| - 1];
      RowsWereSubmitted(c, before);
      RunKeeps(c, before);
      forall p, id | p in Exec(c, run) && id in Exec(c, run)[p].store
        ensures Submitted(run, Exec(c, run)[p].store[id])
      {
        RowOrigin(Exec(c, before), Accepted(c, before), s, p, id);
        RowSubmitted(Exec(c, before), run, Exec(c, run)[p].store[id]);
      }
    } else {
      assert forall n <- c :: c[n].store == map[];
    }
  }

  /** In a full mesh with nothing queued and no id reused, all tables are equal, contents included. */
  lemma IdleTablesEqual(c: Cluster, run: seq<Step>, a: string, b: string)
    requires Fresh(c) && RunOk(c, run) && IdsUnique(run)
    requires FullMesh(c) && Idle(Exec(c, run)) && a in Exec(c, run) && b in Exec(c, run)
    ensures Exec(c, run)[a].store == Exec(c, run)[b].store
  {
    hide Exec, RunOk;
    IdleStoresAgree(c, run, a);
    IdleStoresAgree(c, run, b);
    RowsWereSubmitted(c, run);
    RunKeeps(c, run);
    var d := Exec(c, run);
    assert NodeOk(d, a) && NodeOk(d, b);
    forall id | id in d[a].store
      ensures id in d[b].store && d[a].store[id] == d[b].store[id]
    {
      assert Submitted(run, d[a].store[id]) && Submitted(run, d[b].store[id]);
    }
  }

  // ---- retries settle ----

  /** A turn of the retry loop leaves queued exactly the entries whose peer is not marked alive or did not answer; the
      message of every entry that leaves is in its peer's table. */
  lemma RetryLeaves(c: Cluster, acc: Queue, n: string, net: Net)
    requires Inv(c, acc) && Enabled(c, Retry(n, net))
    ensures Next(c, Retry(n, net)).Keys == c.Keys
    ensures forall e :: e in Next(c, Retry(n, net))[n].pending <==>
      e in c[n].pending && (!Alive(c[n].status, e.0) || e !in net.answers)
    ensures forall e <- c[n].pending :: e !in Next(c, Retry(n, net))[n].pending ==>
      e.0 in c && e.1 in Next(c, Retry(n, net))[e.0].store
    ensures forall a <- c :: a != n ==> Next(c, Retry(n, net))[a].pending == c[a].pending
  {
    hide Deliver;
    assert NodeOk(c, n);
    var targets := Members(LivePeers(c[n].peers, c[n].status));
    var after := c[n].(pending := AfterRetry(c[n], targets, net.answers));
    forall a | a in c
      ensures Next(c, Retry(n, net))[a].pending == if a == n then after.pending else c[a].pending
    {
      DeliverEffect(c, n, after, RetrySends(c[n], targets) * net.reached, a);
    }
    forall e | e in c[n].pending && e !in after.pending
      ensures e.0 in c && e.1 in Next(c, Retry(n, net))[e.0].store
    {
      assert (e.0, e.1) in RetrySends(c[n], targets) * net.reached;
      DeliverEffect(c, n, after, RetrySends(c[n], targets) * net.reached, e.0);
    }
  }

  /** Retry turns of nodes that see all their peers alive, over a network that answers every push. */
  ghost predicate WorkingRound(c: Cluster, round: seq<Step>) {
    round == [] ||
    var before, s := round[..|round| - 1], round[|round| - 1];
    var d := Exec(c, before);
    WorkingRound(c, before) && s.Retry? && Enabled(d, s) && d[s.node].pending <= s.net.answers &&
    forall p <- d[s.node].peers :: Alive(d[s.node].status, p)
  }

  ghost predicate InRound(round: seq<Step>, n: string) {
    exists s :: s in round && s.Retry? && s.node == n
  }

  lemma {:induction false} RoundEmpties(c: Cluster, acc: Queue, round: seq<Step>)
    requires Inv(c, acc) && WorkingRound(c, round)
    ensures RunOk(c, round) && Inv(Exec(c, round), acc) && Exec(c, round).Keys == c.Keys
    ensures forall n <- c :: InRound(round, n) || c[n].pending == {} ==> Exec(c, round)[n].pending == {}
  {
    if round != [] {
      hide Next, Inv, Enabled;
      var before, s := round[..|round| - 1], round[|round| - 1];
      RoundEmpties(c, acc, before);
      StepKeeps(Exec(c, before), acc, s);
      assert acc + Accepts(Exec(c, before), s) == acc;
      forall n | n in c
        ensures n in Exec(c, round) && (InRound(round, n) || c[n].pending == {} ==> Exec(c, round)[n].pending == {})
      {
        TurnEmpties(Exec(c, before), acc, s.node, s.net, n);
        if InRound(round, n) {
          InRoundLast(round, n);
        }
      }
      RetryLeaves(Exec(c, before), acc, s.node, s.net);
    }
  }

  /** One working turn empties the node's queue and leaves the other queues alone. */
  lemma TurnEmpties(d: Cluster, acc: Queue, n: string, net: Net, a: string)
    requires Inv(d, acc) && Enabled(d, Retry(n, net)) && d[n].pending <= net.answers && a in d
    requires forall p <- d[n].peers :: Alive(d[n].status, p)
    ensures a in Next(d, Retry(n, net)) &&
      Next(d, Retry(n, net))[a].pending == if a == n then {} else d[a].pending
  {
    hide Next, Inv;
    RetryLeaves(d, acc, n, net);
    QueuedPeers(d, acc, n);
  }

  lemma InRoundLast(round: seq<Step>, n: string)
    requires round != [] && InRound(round, n)
    ensures InRound(round[..|round| - 1], n) || (round[|round| - 1].Retry? && round[|round| - 1].node == n)
  {
    assert round == round[..|round| - 1] + [round[|round| - 1]];
  }

  lemma QueuedPeers(c: Cluster, acc: Queue, n: string)
    requires Inv(c, acc) && n in c
    ensures forall e <- c[n].pending :: e.0 in c[n].peers
  {
    assert NodeOk(c, n);
  }

  /** From any reachable state of a full mesh, one working retry turn of every node leaves nothing queued and every
      accepted id in every table. */
  lemma RoundConverges(c: Cluster, run: seq<Step>, round: seq<Step>, a: string)
    requires Fresh(c) && RunOk(c, run) && WorkingRound(Exec(c, run), round)
    requires forall n <- Exec(c, run) :: InRound(round, n)
    requires FullMesh(c) && a in Exec(c, run)
    ensures Idle(Exec(Exec(c, run), round))
    ensures a in Exec(Exec(c, run), round) &&
      forall id :: id in Exec(Exec(c, run), round)[a].store <==> Sourced(Accepted(c, run), id)
  {
    hide Exec, WorkingRound, RunOk;
    RunKeeps(c, run);
    RoundEmpties(Exec(c, run), Accepted(c, run), round);
    PeersStay(c, run);
    PeersStay(Exec(c, run), round);
    IdleHoldsAll(Exec(Exec(c, run), round), Accepted(c, run), a);
  }

  lemma IdleHoldsAll(d: Cluster, acc: Queue, a: string)
    requires Inv(d, acc) && FullMesh(d) && Idle(d) && a in d
    ensures forall id :: id in d[a].store <==> Sourced(acc, id)
  {
    forall id | Sourced(acc, id)
      ensures id in d[a].store
    {
      var b :| (b, id) in acc;
      assert PairOk(d, (b, id));
    }
  }

  /** After a pull, a node holds every id that a peer it fetched from holds. */
  lemma {:induction false} PullCatchesUp(store: Table, peers: seq<string>, fetched: map<string, seq<ChatMessage>>,
                                         p: string, rows: Table)
    requires p in peers && p in fetched && Lists(fetched[p], rows) && forall id <- rows :: rows[id].id == id
    ensures rows.Keys + store.Keys <= Pulled(store, peers, fetched).Keys
  {
    var before, q := peers[..|peers| - 1], peers[|peers| - 1];
    assert peers == before + [q];
    if p in before {
      PullCatchesUp(store, before, fetched, p, rows);
      if q in fetched {
        MergeAddsMissing(Pulled(store, before, fetched), fetched[q]);
      }
    } else {
      PullKeepsIds(store, before, fetched);
      MergeAddsMissing(Pulled(store, before, fetched), fetched[p]);
      forall id | id in rows ensures id in Ids(fetched[p]) {
        assert rows[id] in fetched[p];
      }
    }
  }

  lemma {:induction false} PullKeepsIds(store: Table, peers: seq<string>, fetched: map<string, seq<ChatMessage>>)
    ensures store.Keys <= Pulled(store, peers, fetched).Keys
  {
    if peers != [] {
      var before, q := peers[..|peers| - 1], peers[|peers| - 1];
      PullKeepsIds(store, before, fetched);
      if q in fetched {
        MergeAddsMissing(Pulled(store, before, fetched), fetched[q]);
      }
    }
  }
}
