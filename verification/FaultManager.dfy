/** The FaultToleranceManager class with its two tables, updated in place. */
module FaultManagement {
  import opened FailureDetection
  import opened FaultStore

  class PersistentMessageStore {
    var rows: Table

    constructor ()
      ensures rows == map[]
    {
      rows := map[];
    }

    method SaveMessage(m: ChatMessage) returns (inserted: bool)
      modifies this
      ensures rows == Saved(old(rows), m) && inserted == (m.id !in old(rows))
    {
      if m.id in rows {
        return false;
      }
      rows := rows[m.id := m];
      return true;
    }

    method MergeMessages(incoming: seq<ChatMessage>) returns (added: nat)
      modifies this
      ensures rows == Merged(old(rows), incoming) && added == |rows| - |old(rows)|
    {
      added := 0;
      for i := 0 to |incoming|
        invariant rows == Merged(old(rows), incoming[..i]) && added == |rows| - |old(rows)|
      {
        assert incoming[..i + 1][..i] == incoming[..i];
        if incoming[i].id !in rows {
          rows := rows[incoming[i].id := incoming[i]];
          added := added + 1;
        }
      }
      assert incoming[..|incoming|] == incoming;
    }

    /** The rows in whatever order the table yields them, one for each id. */
    method GetAllMessages() returns (all: seq<ChatMessage>)
      ensures Lists(all, rows) && |all| == |rows|
    {
      all := [];
      var left := rows.Keys;
      while left != {}
        invariant left <= rows.Keys && |all| == |rows.Keys| - |left|
        invariant forall m <- all :: exists id :: id in rows && rows[id] == m
        invariant forall id :: id in rows && id !in left ==> rows[id] in all
        decreases left
      {
        var id :| id in left;
        assert left == (left - {id}) + {id};
        all, left := all + [rows[id]], left - {id};
      }
    }
  }

  class PendingReplicationQueue {
    var entries: Queue

    constructor ()
      ensures entries == {}
    {
      entries := {};
    }

    method Enqueue(peer: string, id: string)
      modifies this
      ensures entries == old(entries) + {(peer, id)}
    {
      entries := entries + {(peer, id)};
    }

    /** Returns and removes the pending ids of the peer. */
    method Drain(peer: string) returns (ids: seq<string>)
      modifies this
      ensures forall id :: id in ids <==> (peer, id) in old(entries)
      ensures forall i, j | 0 <= i < j < |ids| :: ids[i] != ids[j]
      ensures entries == set e | e in old(entries) && e.0 != peer
    {
      ids := [];
      var left := QueuedFor(entries, peer);
      while left != {}
        invariant left <= QueuedFor(entries, peer)
        invariant forall id :: id in ids <==> id in QueuedFor(entries, peer) - left
        invariant forall i, j | 0 <= i < j < |ids| :: ids[i] != ids[j]
        decreases left
      {
        var id :| id in left;
        assert forall i | 0 <= i < |ids| :: ids[i] in ids;
        ids, left := ids + [id], left - {id};
      }
      entries := set e | e in entries && e.0 != peer;
    }
  }

  class FaultToleranceManager {
    const peers: seq<string>
    const replicationFactor: Factor
    const store: PersistentMessageStore
    const pendingQueue: PendingReplicationQueue
    const detector: FailureDetector

    constructor (peers: seq<string>, replicationFactor: int, threshold: int)
      ensures Valid() && fresh(store) && fresh(pendingQueue) && fresh(detector)
      ensures this.peers == peers && this.replicationFactor == if replicationFactor > 1 then replicationFactor else 1
      ensures View().store == map[] && View().pending == {} && forall p <- peers :: Alive(View().status, p)
    {
      this.peers := peers;
      this.replicationFactor := if replicationFactor > 1 then replicationFactor else 1;
      store := new PersistentMessageStore();
      pendingQueue := new PendingReplicationQueue();
      detector := new FailureDetector(peers, threshold, true);
    }

    ghost predicate Valid()
      reads detector
    {
      detector.peers == peers && detector.Valid()
    }

    ghost function View(): Node
      reads store, pendingQueue, detector
    {
      Node(peers, replicationFactor, store.rows, pendingQueue.entries, detector.status)
    }

    /** `answers` holds the (peer, id) pairs for which replicate_fn returns True. A message with a missing field or
        an empty id changes nothing. */
    method HandleClientMessage(m: Incoming, answers: Queue) returns (reply: Reply, tried: seq<string>)
      requires Valid()
      modifies store, pendingQueue
      ensures Valid()
      ensures (View(), reply, tried) == HandleSubmission(old(View()), m, answers)
    {
      if !FaultStore.Valid(m) {
        return InvalidFormat, [];
      }
      var inserted := store.SaveMessage(Row(m));
      if !inserted {
        return Duplicate, [];
      }
      var replicated;
      replicated, tried := ReplicateToLivePeers(Row(m), answers);
      reply := StoredAndReplicated(replicated);
    }

    method HandleReplicaMessage(m: Incoming) returns (stored: bool)
      requires Valid()
      modifies store
      ensures Valid() && View() == old(View()).(store := View().store)
      ensures View().store ==
        if HasAllFields(m) then HandleReplica(old(View()).store, Row(m)) else old(View()).store
      ensures stored == (FaultStore.Valid(m) && Row(m).id !in old(View()).store)
    {
      if !FaultStore.Valid(m) {
        return false;
      }
      stored := store.SaveMessage(Row(m));
    }

    method ReplicateToLivePeers(m: ChatMessage, answers: Queue) returns (successful: nat, tried: seq<string>)
      requires Valid()
      modifies pendingQueue
      ensures Pushed(successful, tried, pendingQueue.entries) == Replicate(old(View()), m.id, answers)
    {
      var live := detector.GetLivePeers();
      var needed := replicationFactor - 1;
      successful, tried := PushToLive(live, needed, m.id, answers);
      EnqueueForDead(m.id);
    }

    method EnqueueForDead(id: string)
      modifies pendingQueue
      ensures pendingQueue.entries == old(pendingQueue.entries) + DeadEntries(View(), id)
    {
      for i := 0 to |peers|
        invariant pendingQueue.entries ==
          old(pendingQueue.entries) + set p | p in peers[..i] && !Alive(detector.status, p) :: (p, id)
      {
        assert peers[..i + 1] == peers[..i] + [peers[i]];
        if !detector.IsAlive(peers[i]) {
          pendingQueue.Enqueue(peers[i], id);
        }
      }
      assert peers[..|peers|] == peers;
    }

    /** The loop over live peers of _replicate_to_live_peers. */
    method PushToLive(live: seq<string>, needed: nat, id: string, answers: Queue)
      returns (successful: nat, tried: seq<string>)
      modifies pendingQueue
      ensures Pushed(successful, tried, pendingQueue.entries) ==
        PushLive(live, needed, id, old(pendingQueue.entries), answers)
    {
      successful, tried := 0, [];
      var i := 0;
      while i < |live|
        invariant 0 <= i <= |live|
        invariant Pushed(successful, tried, pendingQueue.entries) ==
          PushLive(live[..i], needed, id, old(pendingQueue.entries), answers)
      {
        if successful >= needed {
          PushStops(live, i, needed, id, old(pendingQueue.entries), answers);
          return;
        }
        assert live[..i + 1][..i] == live[..i];
        tried := tried + [live[i]];
        if (live[i], id) in answers {
          successful := successful + 1;
        } else {
          pendingQueue.Enqueue(live[i], id);
        }
        i := i + 1;
      }
      assert live[..i] == live;
    }

    /** `fetched` holds what fetch_messages_fn returns; a peer missing from it is one whose fetch raised. */
    method RecoverFromPeers(fetched: map<string, seq<ChatMessage>>) returns (recovered: nat)
      modifies store
      ensures store.rows == Pulled(old(store.rows), peers, fetched) && recovered == |store.rows| - |old(store.rows)|
    {
      recovered := 0;
      for i := 0 to |peers|
        invariant store.rows == Pulled(old(store.rows), peers[..i], fetched)
        invariant recovered == |store.rows| - |old(store.rows)|
      {
        assert peers[..i + 1][..i] == peers[..i];
        if peers[i] in fetched && fetched[peers[i]] != [] {
          var added := store.MergeMessages(fetched[peers[i]]);
          recovered := recovered + added;
        }
      }
      assert peers[..|peers|] == peers;
    }

    /** One turn of the body of _retry_loop; `sent` holds the pairs handed to replicate_fn. */
    method RetryLivePeers(answers: Queue) returns (ghost sent: Queue)
      requires Valid()
      modifies pendingQueue
      ensures pendingQueue.entries == AfterRetry(old(View()), Members(LivePeers(peers, detector.status)), answers)
      ensures sent == RetrySends(old(View()), Members(LivePeers(peers, detector.status)))
    {
      hide AfterRetry, RetrySends, LivePeers;
      var live := detector.GetLivePeers();
      sent := {};
      ghost var was := View();
      RetryNothing(was, answers);
      assert Members(live[..0]) == {};
      for i := 0 to |live|
        invariant View() == was.(pending := AfterRetry(was, Members(live[..i]), answers))
        invariant sent == RetrySends(was, Members(live[..i]))
      {
        assert Members(live[..i + 1]) == Members(live[..i]) + {live[i]};
        RetryOneMore(was, Members(live[..i]), live[i], answers);
        if QueuedFor(pendingQueue.entries, live[i]) != {} {
          var _, part := OnPeerRecovered(live[i], answers);
          sent := sent + part;
        } else {
          RetryIdle(View(), live[i], answers);
        }
      }
      assert live[..|live|] == live;
    }

    /** Drains the peer's queue, sends each message again and puts back what fails. */
    method OnPeerRecovered(peer: string, answers: Queue) returns (retried: nat, ghost sent: Queue)
      modifies pendingQueue
      ensures pendingQueue.entries == AfterRetry(old(View()), {peer}, answers)
      ensures sent == RetrySends(old(View()), {peer}) && retried == |sent * answers|
    {
      var ids := pendingQueue.Drain(peer);
      retried, sent := Resend(peer, ids, answers);
      RetryByIds(old(View()), peer, ids, answers);
    }

    /** The loop over the drained ids. */
    method Resend(peer: string, ids: seq<string>, answers: Queue) returns (retried: nat, ghost sent: Queue)
      requires forall i, j | 0 <= i < j < |ids| :: ids[i] != ids[j]
      modifies pendingQueue
      ensures sent == SentOf(peer, ids, store.rows) && retried == |sent * answers|
      ensures pendingQueue.entries == Requeued(old(pendingQueue.entries), sent, answers)
    {
      hide SentOf, Requeued;
      retried, sent := 0, {};
      SendNone(old(pendingQueue.entries), peer, ids, store.rows, answers);
      for i := 0 to |ids|
        invariant sent == SentOf(peer, ids[..i], store.rows)
        invariant pendingQueue.entries == Requeued(old(pendingQueue.entries), sent, answers)
        invariant retried == |sent * answers|
      {
        SentOfNext(peer, ids, i, store.rows);
        if ids[i] in store.rows {
          SendOneMore(old(pendingQueue.entries), sent, (peer, ids[i]), answers);
          if (peer, ids[i]) in answers {
            retried := retried + 1;
          } else {
            pendingQueue.Enqueue(peer, ids[i]);
          }
          sent := sent + {(peer, ids[i])};
        }
      }
      assert ids[..|ids|] == ids;
    }
  }

  /** The queue once the failures among the pairs sent are put back. */
  ghost function Requeued(entries: Queue, sent: Queue, answers: Queue): Queue {
    entries + (sent - answers)
  }

  lemma SendOneMore(entries: Queue, sent: Queue, e: (string, string), answers: Queue)
    requires e !in sent
    ensures Requeued(entries, sent + {e}, answers) ==
      if e in answers then Requeued(entries, sent, answers) else Requeued(entries, sent, answers) + {e}
    ensures |(sent + {e}) * answers| == |sent * answers| + if e in answers then 1 else 0
  {
    assert (sent + {e}) * answers == sent * answers + if e in answers then {e} else {};
  }

  lemma SendNone(entries: Queue, peer: string, ids: seq<string>, rows: Table, answers: Queue)
    ensures SentOf(peer, ids[..0], rows) == {} && Requeued(entries, {}, answers) == entries
  {
  }

  lemma RetryByIds(n: Node, p: string, ids: seq<string>, answers: Queue)
    requires forall id :: id in ids <==> (p, id) in n.pending
    ensures SentOf(p, ids, n.store) == RetrySends(n, {p})
    ensures Requeued((set e | e in n.pending && e.0 != p), SentOf(p, ids, n.store), answers) ==
      AfterRetry(n, {p}, answers)
  {
  }

  ghost function SentOf(peer: string, ids: seq<string>, rows: Table): Queue {
    set id | id in ids && id in rows :: (peer, id)
  }

  lemma SentOfNext(peer: string, ids: seq<string>, i: nat, rows: Table)
    requires i < |ids| && forall j, k | 0 <= j < k < |ids| :: ids[j] != ids[k]
    ensures (peer, ids[i]) !in SentOf(peer, ids[..i], rows)
    ensures SentOf(peer, ids[..i + 1], rows) ==
      SentOf(peer, ids[..i], rows) + if ids[i] in rows then {(peer, ids[i])} else {}
  {
    assert ids[..i + 1] == ids[..i] + [ids[i]];
  }

  lemma RetryNothing(n: Node, answers: Queue)
    ensures AfterRetry(n, {}, answers) == n.pending && RetrySends(n, {}) == {}
  {
  }

  /** Retrying towards one more peer after the others. */
  lemma RetryOneMore(n: Node, done: set<string>, p: string, answers: Queue)
    requires p !in done
    ensures var mid := n.(pending := AfterRetry(n, done, answers));
      AfterRetry(mid, {p}, answers) == AfterRetry(n, done + {p}, answers) &&
      RetrySends(n, done) + RetrySends(mid, {p}) == RetrySends(n, done + {p})
  {
  }

  lemma RetryIdle(n: Node, p: string, answers: Queue)
    requires QueuedFor(n.pending, p) == {}
    ensures AfterRetry(n, {p}, answers) == n.pending && RetrySends(n, {p}) == {}
  {
    assert forall e <- n.pending :: e.0 == p ==> e.1 in QueuedFor(n.pending, p);
  }

  lemma {:induction false} PushStops(live: seq<string>, i: nat, needed: nat, id: string, pending: Queue, answers: Queue)
    requires i <= |live| && PushLive(live[..i], needed, id, pending, answers).successful >= needed
    ensures PushLive(live, needed, id, pending, answers) == PushLive(live[..i], needed, id, pending, answers)
  {
    if i == |live| {
      assert live[..i] == live;
    } else {
      var before := live[..|live| - 1];
      assert before[..i] == live[..i];
      PushStops(before, i, needed, id, pending, answers);
    }
  }
}
