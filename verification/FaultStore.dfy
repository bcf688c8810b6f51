/** The message table and the pending-replication table of one node, and what each handler of the
    fault-tolerance manager does to them. */
module FaultStore {
  import opened FailureDetection

  datatype ChatMessage = ChatMessage(id: string, sender: string, receiver: string, content: string,
                                     timestamp: real, origin: string)

  /** A message as it comes in: any field may be missing. */
  datatype Field<T> = Missing | Given(value: T)

  datatype Incoming = Incoming(id: Field<string>, sender: Field<string>, receiver: Field<string>,
                               content: Field<string>, timestamp: Field<real>, origin: Field<string>)

  predicate HasAllFields(m: Incoming) {
    m.id.Given? && m.sender.Given? && m.receiver.Given? && m.content.Given? && m.timestamp.Given? && m.origin.Given?
  }

  function Row(m: Incoming): ChatMessage
    requires HasAllFields(m)
  {
    ChatMessage(m.id.value, m.sender.value, m.receiver.value, m.content.value, m.timestamp.value, m.origin.value)
  }

  /** _validate_message */
  predicate Valid(m: Incoming) {
    HasAllFields(m) && m.id.value != ""
  }

  type Table = map<string, ChatMessage>
  type Queue = set<(string, string)>  // (peer, message id)
  type Factor = n: int | n >= 1 witness 1

  datatype Node = Node(peers: seq<string>, factor: Factor, store: Table, pending: Queue, status: map<string, bool>)

  /** `all` holds the rows of the table and nothing else. */
  ghost predicate Lists(all: seq<ChatMessage>, rows: Table) {
    (forall m <- all :: exists id :: id in rows && rows[id] == m) && forall id <- rows :: rows[id] in all
  }

  function Saved(store: Table, m: ChatMessage): Table {
    if m.id in store then store else store[m.id := m]
  }

  /** merge_messages: insert row by row, skipping ids already there. */
  function Merged(store: Table, incoming: seq<ChatMessage>): Table {
    if incoming == [] then store
    else Saved(Merged(store, incoming[..|incoming| - 1]), incoming[|incoming| - 1])
  }

  function Ids(incoming: seq<ChatMessage>): set<string> {
    set m | m in incoming :: m.id
  }

  /** Row k is the first of the batch with its id, and its id is new. */
  predicate FirstOfId(store: Table, incoming: seq<ChatMessage>, k: nat)
    requires k < |incoming|
  {
    incoming[k].id !in store && forall j | 0 <= j < k :: incoming[j].id != incoming[k].id
  }

  /** Merging adds exactly the missing ids and keeps every old row. */
  lemma {:induction false} MergeAddsMissing(store: Table, incoming: seq<ChatMessage>)
    ensures Merged(store, incoming).Keys == store.Keys + Ids(incoming)
    ensures forall id <- store :: Merged(store, incoming)[id] == store[id]
  {
    if incoming != [] {
      var before, m := incoming[..|incoming| - 1], incoming[|incoming| - 1];
      MergeAddsMissing(store, before);
      assert incoming == before + [m];
      assert Ids(incoming) == Ids(before) + {m.id};
    }
  }

  /** The row kept for a new id is the first one of the batch. */
  lemma {:induction false} MergeKeepsFirst(store: Table, incoming: seq<ChatMessage>, k: nat)
    requires k < |incoming| && FirstOfId(store, incoming, k)
    ensures incoming[k].id in Merged(store, incoming) && Merged(store, incoming)[incoming[k].id] == incoming[k]
  {
    var before := incoming[..|incoming| - 1];
    if k < |before| {
      MergeKeepsFirst(store, before, k);
    } else {
      MergeAddsMissing(store, before);
    }
  }

  /** Every row of the result is an old one or comes from the batch. */
  lemma {:induction false} MergeInventsNothing(store: Table, incoming: seq<ChatMessage>, id: string)
    requires id in Merged(store, incoming) && id !in store
    ensures Merged(store, incoming)[id] in incoming
  {
    if incoming != [] {
      var before, m := incoming[..|incoming| - 1], incoming[|incoming| - 1];
      if id in Merged(store, before) {
        MergeInventsNothing(store, before, id);
      }
      assert m in incoming && forall x <- before :: x in incoming;
    }
  }

  /** recover_from_peers: a peer missing from `fetched` is one whose fetch failed. */
  function Pulled(store: Table, peers: seq<string>, fetched: map<string, seq<ChatMessage>>): Table {
    if peers == [] then store
    else
      var before := Pulled(store, peers[..|peers| - 1], fetched);
      var p := peers[|peers| - 1];
      if p in fetched then Merged(before, fetched[p]) else before
  }

  // ---- replication ----

  datatype Pushed = Pushed(successful: nat, tried: seq<string>, pending: Queue)

  /** The loop over live peers of _replicate_to_live_peers. `answers` holds the (peer, id) pairs for which
      replicate_fn returned True. */
  function PushLive(live: seq<string>, needed: nat, id: string, pending: Queue, answers: Queue): Pushed {
    if live == [] then Pushed(0, [], pending)
    else
      var r := PushLive(live[..|live| - 1], needed, id, pending, answers);
      var p := live[|live| - 1];
      if r.successful >= needed then r
      else if (p, id) in answers then r.(successful := r.successful + 1, tried := r.tried + [p])
      else r.(tried := r.tried + [p], pending := r.pending + {(p, id)})
  }

  function Replicate(n: Node, id: string, answers: Queue): Pushed {
    var r := PushLive(LivePeers(n.peers, n.status), n.factor - 1, id, n.pending, answers);
    r.(pending := r.pending + DeadEntries(n, id))
  }

  function DeadEntries(n: Node, id: string): Queue {
    set p | p in n.peers && !Alive(n.status, p) :: (p, id)
  }

  datatype Reply = InvalidFormat | Duplicate | StoredAndReplicated(replicatedTo: nat)

  /** handle_client_message; `tried` lists the peers the message was sent to. */
  function HandleClient(n: Node, m: ChatMessage, answers: Queue): (Node, Reply, seq<string>) {
    if m.id == "" then (n, InvalidFormat, [])
    else if m.id in n.store then (n, Duplicate, [])
    else
      var r := Replicate(n, m.id, answers);
      (n.(store := Saved(n.store, m), pending := r.pending), StoredAndReplicated(r.successful), r.tried)
  }

  /** The same for a message as it comes in. */
  function HandleSubmission(n: Node, m: Incoming, answers: Queue): (Node, Reply, seq<string>) {
    if HasAllFields(m) then HandleClient(n, Row(m), answers) else (n, InvalidFormat, [])
  }

  predicate Incomplete(m: Incoming) {
    m.id == Missing || m.sender == Missing || m.receiver == Missing || m.content == Missing || m.timestamp == Missing
    || m.origin == Missing
  }

  /** What each reply means: the format is invalid exactly if a field is missing or the id is empty, the message is a
      duplicate exactly if otherwise the table has its id, and in both cases nothing changes and nobody is asked. A
      message is stored, field by field as it came, exactly if neither is the case. */
  lemma ReplyExactly(n: Node, m: Incoming, answers: Queue)
    ensures var (after, reply, tried) := HandleSubmission(n, m, answers);
      (reply == InvalidFormat <==> Incomplete(m) || m.id.value == "") &&
      (reply == Duplicate <==> !Incomplete(m) && m.id.value != "" && m.id.value in n.store) &&
      (reply.StoredAndReplicated? <==> !Incomplete(m) && m.id.value != "" && m.id.value !in n.store) &&
      (!reply.StoredAndReplicated? ==> after == n && tried == []) &&
      (reply.StoredAndReplicated? ==>
        after == n.(store := after.store, pending := after.pending) && n.pending <= after.pending &&
        after.store == n.store[m.id.value := ChatMessage(m.id.value, m.sender.value, m.receiver.value, m.content.value,
                                                         m.timestamp.value, m.origin.value)])
  {
    hide PushLive, LivePeers;
    if HasAllFields(m) {
      PushKeeps(LivePeers(n.peers, n.status), n.factor - 1, m.id.value, n.pending, answers);
    }
  }

  lemma {:induction false} PushKeeps(live: seq<string>, needed: nat, id: string, pending: Queue, answers: Queue)
    ensures pending <= PushLive(live, needed, id, pending, answers).pending
  {
    if live != [] {
      PushKeeps(live[..|live| - 1], needed, id, pending, answers);
    }
  }

  /** handle_replica_message. */
  function HandleReplica(store: Table, m: ChatMessage): Table {
    if m.id == "" then store else Saved(store, m)
  }

  /** The ids queued for the peer. */
  function QueuedFor(pending: Queue, peer: string): (ids: set<string>)
    ensures forall id :: id in ids <==> (peer, id) in pending
  {
    set e | e in pending && e.0 == peer :: e.1
  }

  /** The queued pairs that a retry towards `targets` sends: those whose message is in the table. */
  function RetrySends(n: Node, targets: set<string>): Queue {
    set e | e in n.pending && e.0 in targets && e.1 in n.store
  }

  /** What is left queued after a retry towards `targets`. */
  function AfterRetry(n: Node, targets: set<string>, answers: Queue): Queue {
    set e | e in n.pending && (e.0 in targets ==> e.1 in n.store && e !in answers)
  }

  /** Of the queued entries, those for other peers stay and are not sent; of the others, those without a row are
      dropped, and the rest are sent and stay exactly if no answer comes. Nothing is added to the queue. */
  lemma RetryExactly(n: Node, targets: set<string>, answers: Queue, e: (string, string))
    ensures var sent, left := RetrySends(n, targets), AfterRetry(n, targets, answers);
      (e in sent <==> e in n.pending && e.0 in targets && e.1 in n.store) &&
      (e in left <==> e in n.pending && (e.0 !in targets || (e in sent && e !in answers)))
  {
  }

  // ---- what one push achieves ----

  /** Peer p has acknowledged the message or is queued for it. */
  predicate Covered(p: string, id: string, tried: seq<string>, pending: Queue, answers: Queue) {
    (p in tried && (p, id) in answers) || (p, id) in pending
  }

  /** Peers are tried in order, without gaps, until enough have acknowledged. */
  lemma {:induction false} PushLiveShape(live: seq<string>, needed: nat, id: string, pending: Queue, answers: Queue)
    ensures var r := PushLive(live, needed, id, pending, answers);
      r.successful <= needed && r.successful <= |r.tried| <= |live| && r.tried == live[..|r.tried|] &&
      (r.successful < needed ==> r.tried == live)
  {
    if live != [] {
      var before := live[..|live| - 1];
      PushLiveShape(before, needed, id, pending, answers);
      assert live == before + [live[|live| - 1]];
    }
  }

  /** A peer that was tried acknowledged or is queued; nothing queued before is dropped. */
  lemma {:induction false} PushLiveCovers(live: seq<string>, needed: nat, id: string, pending: Queue, answers: Queue,
                                          p: string)
    ensures var r := PushLive(live, needed, id, pending, answers);
      pending <= r.pending && (p in r.tried ==> Covered(p, id, r.tried, r.pending, answers))
  {
    if live != [] {
      PushLiveCovers(live[..|live| - 1], needed, id, pending, answers, p);
    }
  }

  /** The push queues the message and nothing else. */
  lemma {:induction false} PushLiveQueues(live: seq<string>, needed: nat, id: string, pending: Queue, answers: Queue)
    ensures forall e <- PushLive(live, needed, id, pending, answers).pending ::
      e in pending || (e.0 in live && e.1 == id)
  {
    if live != [] {
      PushLiveQueues(live[..|live| - 1], needed, id, pending, answers);
    }
  }

  /** The peers that acknowledged. */
  function Acked(tried: seq<string>, id: string, answers: Queue): set<string> {
    set p | p in tried && (p, id) in answers
  }

  lemma AckedNext(tried: seq<string>, p: string, id: string, answers: Queue)
    requires p !in tried
    ensures |Acked(tried + [p], id, answers)| == |Acked(tried, id, answers)| + if (p, id) in answers then 1 else 0
  {
    assert Acked(tried + [p], id, answers) == Acked(tried, id, answers) + if (p, id) in answers then {p} else {};
    assert p !in Acked(tried, id, answers);
  }

  /** The reply counts the peers that acknowledged. */
  lemma {:induction false} PushLiveCounts(live: seq<string>, needed: nat, id: string, pending: Queue, answers: Queue)
    requires forall i, j | 0 <= i < j < |live| :: live[i] != live[j]
    ensures var r := PushLive(live, needed, id, pending, answers);
      r.successful == |Acked(r.tried, id, answers)|
  {
    hide Acked;
    if live == [] {
      AckedNone(id, answers);
    } else {
      var before := live[..|live| - 1];
      var p := live[|live| - 1];
      var q := PushLive(before, needed, id, pending, answers);
      PushLiveCounts(before, needed, id, pending, answers);
      PushLiveShape(before, needed, id, pending, answers);
      assert p !in q.tried;
      AckedNext(q.tried, p, id, answers);
    }
  }

  lemma AckedNone(id: string, answers: Queue)
    ensures Acked([], id, answers) == {}
  {
  }

  /** The reply counts the acknowledgements. Unless the factor is reached, every peer acknowledged the message
      or is queued for it. */
  lemma AcceptedReach(n: Node, m: ChatMessage, answers: Queue)
    requires HandleClient(n, m, answers).1.StoredAndReplicated?
    ensures var (after, reply, tried) := HandleClient(n, m, answers);
      reply.replicatedTo == |Acked(tried, m.id, answers)| &&
      (reply.replicatedTo == n.factor - 1 || forall p <- n.peers :: Covered(p, m.id, tried, after.pending, answers))
  {
    hide PushLive, LivePeers, Acked, Covered;
    PushLiveCounts(LivePeers(n.peers, n.status), n.factor - 1, m.id, n.pending, answers);
    PushLiveShape(LivePeers(n.peers, n.status), n.factor - 1, m.id, n.pending, answers);
    if HandleClient(n, m, answers).1.replicatedTo != n.factor - 1 {
      forall p | p in n.peers
        ensures Covered(p, m.id, HandleClient(n, m, answers).2, HandleClient(n, m, answers).0.pending, answers)
      {
        PeerCovered(n, m, answers, p);
      }
    }
  }

  lemma PeerCovered(n: Node, m: ChatMessage, answers: Queue, p: string)
    requires HandleClient(n, m, answers).1.StoredAndReplicated? && p in n.peers
    requires HandleClient(n, m, answers).1.replicatedTo < n.factor - 1 || n.factor - 1 >= |LivePeers(n.peers, n.status)|
    ensures var (after, reply, tried) := HandleClient(n, m, answers);
      Covered(p, m.id, tried, after.pending, answers)
  {
    hide PushLive, LivePeers;
    var live := LivePeers(n.peers, n.status);
    if Alive(n.status, p) {
      PushLiveShape(live, n.factor - 1, m.id, n.pending, answers);
      PushLiveCovers(live, n.factor - 1, m.id, n.pending, answers, p);
      var r := PushLive(live, n.factor - 1, m.id, n.pending, answers);
      assert |r.tried| == |live| ==> r.tried == live;
    } else {
      assert (p, m.id) in DeadEntries(n, m.id);
    }
  }

  /** Every peer is covered whatever the network answers exactly when the factor allows for all the live peers. */
  lemma CoverageNeedsFullFactor(n: Node, m: ChatMessage)
    requires m.id != "" && m.id !in n.store
    requires forall p :: (p, m.id) !in n.pending
    ensures (forall answers :: AllCovered(n, m, answers)) <==> n.factor - 1 >= |LivePeers(n.peers, n.status)|
  {
    if n.factor - 1 >= |LivePeers(n.peers, n.status)| {
      forall answers ensures AllCovered(n, m, answers) {
        FullFactorCovers(n, m, answers);
      }
    } else {
      SmallFactorSkips(n, m);
    }
  }

  predicate AllCovered(n: Node, m: ChatMessage, answers: Queue) {
    var (after, reply, tried) := HandleClient(n, m, answers);
    forall p <- n.peers :: Covered(p, m.id, tried, after.pending, answers)
  }

  lemma FullFactorCovers(n: Node, m: ChatMessage, answers: Queue)
    requires HandleClient(n, m, answers).1.StoredAndReplicated? && n.factor - 1 >= |LivePeers(n.peers, n.status)|
    ensures AllCovered(n, m, answers)
  {
    hide HandleClient, Covered, LivePeers;
    forall p | p in n.peers
      ensures Covered(p, m.id, HandleClient(n, m, answers).2, HandleClient(n, m, answers).0.pending, answers)
    {
      PeerCovered(n, m, answers, p);
    }
  }

  /** With a smaller factor and a network that delivers everything, some live peer is neither sent the message
      nor queued for it. */
  lemma SmallFactorSkips(n: Node, m: ChatMessage)
    requires m.id != "" && m.id !in n.store && n.factor - 1 < |LivePeers(n.peers, n.status)|
    requires forall p :: (p, m.id) !in n.pending
    ensures exists answers :: !AllCovered(n, m, answers)
  {
    hide PushLive, LivePeers;
    var live := LivePeers(n.peers, n.status);
    var answers := set p | p in live :: (p, m.id);
    PushAllAnswer(live, n.factor - 1, m.id, n.pending, answers);
    var p := live[n.factor - 1];
    assert p in live && p !in live[..n.factor - 1];
    assert !Covered(p, m.id, HandleClient(n, m, answers).2, HandleClient(n, m, answers).0.pending, answers);
    assert !AllCovered(n, m, answers);
  }

  /** When every live peer answers, the first `needed` are tried and the rest are left out. */
  lemma {:induction false} PushAllAnswer(live: seq<string>, needed: nat, id: string, pending: Queue, answers: Queue)
    requires forall p <- live :: (p, id) in answers
    ensures PushLive(live, needed, id, pending, answers) ==
      var k := if needed < |live| then needed else |live|; Pushed(k, live[..k], pending)
  {
    if live != [] {
      PushAllAnswer(live[..|live| - 1], needed, id, pending, answers);
    }
  }
}
