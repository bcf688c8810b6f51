# HiveChat verification

HiveChat is a replicated chat system: Raft consensus (`node/consensus.py`), a persistent message store with retries
(`node/fault.py`), physical and logical clocks with a causal reorder buffer (`node/time_sync.py`) and vector clocks
(`node/replication.py`). This project models those four parts in Dafny and proves what they are for. Each class of the
program is a Dafny class whose methods update the same fields in place; each method is proved equal to a function on
values, and the theorems are proved about runs of those functions.

Verify everything with `dafny verify dfyconfig.toml`.

## How it is organised

| files | content |
|---|---|
| RaftServer, RaftCluster | one server and its RPC handlers; the public calls as steps of a cluster of any size |
| RaftNode | the `RaftNode` class, method by method equal to those functions |
| RaftRules | each RPC rule by rule: when it answers True, and what a refusal leaves behind |
| RaftInvariant, RaftSteps, RaftCalls | the inductive invariant; every step and every public call keeps it |
| RaftSafety | the theorems of sections 5.2 to 5.4 of the Raft paper (Ongaro and Ousterhout, extended version) over all runs |
| RaftElections | election safety, section 5.2: what recover() must leave behind, and which runs the other theorems ask for |
| RaftAppends | every append of a run, also in the middle of a call, respects commits |
| RaftProgress | when exactly an election is won, an entry committed, a write acknowledged; what a won election establishes |
| RaftReplication | what one replicate_log, and one sync_from_leader, achieves at each server |
| RaftOutages | what a crash takes away and what recover() gives back |
| RaftAvailability | a live majority elects a leader that accepts writes |
| RaftHints | what `leader_id` is worth |
| RaftLimits, RaftForgetting | runs that show why two calls need a condition, and which conditions |
| Reorderer, ReorderBuffer | the reorder buffer as functions, and the class that equals them |
| CausalDelivery, Confluence | conservation, fixpoint, causal order; independence of arrival order; completeness |
| DeliveryOrder | when the order of delivery does not depend on the order of arrival |
| DeliveryTurns | the order in which one call hands messages over |
| DeliveryLimits | runs with timeouts that overtake and repeat |
| FaultStore, FaultManager | tables and handlers of the fault-tolerance manager; its classes |
| FaultCluster | runs of a cluster: no accepted message is lost, tables converge |
| FailureDetector | the missed-heartbeat detector and its meaning for any ping history |
| VectorClocks, Causality, LamportClocks | the logical clocks and what comparing them decides |
| Median, TimeSync | the median, the sample window, and the error bound of the offset estimate |

## Raft: what a run is

RPCs are direct method calls, so each public call is one atomic step. A run is any finite sequence of elections, client
writes, replications, commits, crashes, recoveries, partitions, heals and syncs on a fixed full mesh with distinct ids.
The code differs from the paper, and the model follows the code: `append_entries` cuts the log on a previous-entry
conflict, caps the commit point by its own log length, and answers with a bare boolean, so a stale leader never steps
down on a refusal.

Two calls do less than their documentation says, so the theorems need a condition on each. Every other call is
unrestricted.

- `recover()` says that persistent state survives (node/consensus.py:706-707) but clears the vote
  (node/consensus.py:714). Only election safety depends on votes: all other theorems are for every run in which no term
  is led twice (`RaftSafety.Admissible`; `RaftElections.AdmissibleIff` proves the equivalence). Election safety
  (`RaftElections.ElectionSafety`) is for runs in which a recover() that clears a vote for a leader of the current term
  finds the cluster in one of two states (`StillRemembered`, read before the call): every server has reached that term,
  so nobody can stand in it any more; or, without the caller, the servers past the term or with the same vote in it meet
  every majority. A follower that crashes and recovers once every server has heard of the term satisfies the first, any
  number of times. The term stays sealed exactly under this condition (`RaftElections.RecoverSealsIff`). In a term that
  is not sealed a second leader is within reach: `RaftForgetting.ForgottenTermLedTwice` proves it whenever a server
  behind the term is at least as up to date as a majority that does not remember its leader, whether those servers are
  up, down or have voted for somebody else, and `RaftForgetting.SecondLeaderIff` gives the equivalence where it is as up
  to date as all of them. `RaftLimits.RecoverAllowsTwoLeaders` is such a run of five calls. The documented behaviour,
  `RecoverDurable`, is a step of the model too and needs no condition.
- `sync_from_leader` takes over the leader's commit point even when the leader's append was refused
  (node/consensus.py:750-756). `SyncSafe` is a condition on the two servers before the call;
  `RaftLimits.SyncKeepsAgreementIff` proves that what the two have applied still agrees after the call if and only if it
  holds, `RaftLimits.StaleSyncDiverges` gives a ten-call run in which it does not.

`applied` in the model lists the calls of `apply_committed_entry`, oldest first.

## Other places where code and documentation differ

- `happened_before` says "in EVERY position" (node/replication.py:119-122) but looks only at the second clock's keys.
  `VectorClocks.DocumentedOrderIff` gives the exact condition for a node set; `VectorClocks.BothWays` has two clocks,
  each reported as before the other. On a fixed node set the comparison is exact
  (`Causality.ClockCharacterisesCausality`).
- The outlier filter is meant to drop samples taken during congestion (node/time_sync.py:333-336). Rejected round trips
  never enter the history, so on a path that stays slow it rejects everything: `TimeSync.SlowPathFreezesIff` says
  exactly when, `TimeSync.FreezeExample` is such a run of any length.
- The sort key is said to give a consistent delivery order across all nodes (node/time_sync.py:522-524). It orders one
  flush. `DeliveryOrder.TwoNodesDiffer` has two messages that two nodes hand over in different orders. Without timeouts,
  `DeliveryOrder.OrderFixedIff` proves that the order is the same for all arrival orders if and only if, of any two
  messages that can be handed over at all, one must come after the other, and which messages those are does not depend
  on arrival order (`Confluence.SameOutcome`, `Confluence.DeliveredIff`).
- `match_index` is the highest index known to be replicated on a peer (node/consensus.py:140-142), but a peer that
  already held the leader's log when it took office is sent nothing and keeps -1 until the next entry
  (node/consensus.py:512-516). `RaftReplication.ReplicationSpreads` says for which peers the index moves.
- `get_leader` promises the current leader (node/consensus.py:166-174). A server that has voted for itself may go on
  naming the leader of an earlier term (`RaftLimits.HintGoesStale`); any other hint names a server that has led the
  holder's own term (`RaftHints.HintHasLed`).

## Model

| member | source | states |
|---|---|---|
| RaftElections.ElectionSafety | node/consensus.py:226-271 | in every run whose recover() calls are careful, whatever its syncs, at most one server ever leads a term, even at different times |
| RaftElections.CarefulIsAdmissible | node/consensus.py:209-271 | careful runs with believable syncs are runs to which every other theorem applies |
| RaftElections.AdmissibleIff | node/consensus.py:209-271 | a run with believable syncs is one the other theorems speak of if and only if no term has two leaders |
| RaftElections.NoSecondWinner | node/consensus.py:261-267 | in a sealed term no other server wins: its votes and those that remember the leader would overlap |
| RaftElections.WinnerSeals | node/consensus.py:314-340 | a won election seals its term |
| RaftElections.CallVotes | node/consensus.py:209-758 | every call but recover() keeps each vote for its term, a new vote is for the server that stands and for its new term, and only the winner takes office |
| RaftElections.VotesForCandidates | node/consensus.py:305-340 | in every run, admissible or not, voted_for names a server that stood in exactly the voter's current term: entering a term clears the vote, and a refused request leaves none |
| RaftElections.LeaderNamesItself | node/consensus.py:342-368 | in every run a server in office names itself as the leader |
| RaftRules.VoteGrantedIff | node/consensus.py:302-340 | who gets a vote, in terms of the last log entries |
| RaftRules.VoteLeaves | node/consensus.py:302-340 | a request leaves at most its term and a granted vote; entering a term clears the vote, makes a follower and forgets the leader |
| RaftRules.RefusalForgotten | node/consensus.py:310-335 | a request refused for its log never changes the answer to another one |
| RaftRules.GrantBinds | node/consensus.py:318-340 | a vote given is refused to every other candidate of the term and given again to the same one |
| RaftRules.AppendAcceptedIff | node/consensus.py:553-585 | an append is accepted exactly by a live server in no later term that holds the previous entry |
| RaftRules.RefusedAppend | node/consensus.py:553-585 | a refused append leaves the log whole, unless the previous entry has another term: then exactly the entries before it remain; nothing is committed |
| RaftRules.AcceptedAppend | node/consensus.py:587-606 | an accepted append cuts only at the first conflict and then has the leader's entries; the commit point follows as far as the log reaches |
| RaftRules.AppendFollows | node/consensus.py:559-575 | any append of no earlier term makes the server follow the sender, accepted or not |
| RaftSafety.LogMatching | node/consensus.py:579-597 | any two logs of a run, even at different times, with equal terms at an index are equal through it, messages included |
| RaftSafety.LeaderCompleteness | node/consensus.py:634-651 | what any server knows committed, at any time, is in the log of every leader of a later term, whether it leads before, at or after that time, and of every leader of the same term from then on |
| RaftSafety.StateMachineSafety | node/consensus.py:671-678 | each server has applied exactly its log through last_applied, in order, once each; the applied sequences of any two servers extend one another |
| RaftSafety.CommittedForever | node/consensus.py:582-597 | no truncation reaches committed entries; terms, commit points and applied sequences only grow |
| RaftSafety.DurableAcknowledgement | node/consensus.py:415-450 | a True answer means the entry is on a majority at return and in the log of every leader of this or a later term, whatever follows |
| RaftSafety.CommittedOnMajority | node/consensus.py:642-651 | a committed prefix is held by a majority |
| RaftSafety.MatchIndexSound | node/consensus.py:512-517 | match_index never overstates: the peer has reached the leader's term and, while in it, agrees through that index, stale leaders included |
| RaftSafety.AppendRespectsCommits | node/consensus.py:579-604 | between calls: an append never cuts the peer's committed entries; the commit point passed on never exceeds what the call covers, so the cap by log length commits only the leader's entries |
| RaftAppends.EveryAppendRespectsCommits | node/consensus.py:370-525 | the same for every append that any call of the run sends, in the state in which it is sent |
| RaftSafety.BacktrackingRepairs | node/consensus.py:490-525 | backtracking ends; a live peer in no later term then starts with the leader's whole log, any other is untouched and counts for nothing new |
| RaftSafety.RunOk | node/consensus.py:209-758 | the invariant holds in every state of every admissible run |
| RaftProgress.AcknowledgedIff | node/consensus.py:433-450 | a write is acknowledged exactly when the server is a live leader and, with itself, the reachable peers in no later term are a majority |
| RaftProgress.ElectionWonIff | node/consensus.py:243-271 | an election is won exactly when, with the candidate, the reachable peers that are in no later term, have not voted for another and are not more up to date are a majority |
| RaftProgress.CommitIsHighest | node/consensus.py:634-651 | commit_entries moves to the highest entry of the current term held by a majority, or stays |
| RaftProgress.StaleLeaderRefused | node/consensus.py:433-450 | once a server has led a later term, no write of a server in an earlier term is acknowledged |
| RaftProgress.WinnerIsFollowed | node/consensus.py:342-400 | a won election leaves every reachable peer of no later term a follower of the winner in its term, with its commit point where the logs meet; a log with another entry in the place of the winner's last one is cut there, every other log is unchanged |
| RaftHints.HintHasLed | node/consensus.py:166-174 | in every run, admissible or not, leader_id is -1 or names a server that has led the holder's own term, unless the holder has voted for itself in it; then a server that has led that term or an earlier one |
| RaftHints.TermsRise | node/consensus.py:104-107 | in every run, admissible or not, terms never fall |
| RaftLimits.HintGoesStale | node/consensus.py:222-271 | a run in which a server that stood in vain names the leader of the term before |
| RaftProgress.ReplicateCounts | node/consensus.py:469-525 | replicate_log moves the match index to the end of the log exactly at the receptive peers that had not been sent everything or did not hold the last entry; every other match index stays |
| RaftReplication.ReplicationSpreads | node/consensus.py:452-525 | after replicate_log every receptive peer is in the leader's term, holds its whole log and has applied all that the leader had; every other peer is unchanged; which match indexes moved |
| RaftReplication.SyncCatchesUp | node/consensus.py:733-758 | when sync_from_leader answers True; the caller then holds the leader's log and has applied all that it had, unless it is in a later term; otherwise nothing changes |
| RaftOutages.CrashedStaysOut | node/consensus.py:691-700 | from a crash to the next recovery no call changes the server's term, vote, log or role |
| RaftOutages.IsolatedStays | node/consensus.py:245-251 | a server cut off from all others, by either side, is changed by no call on another server, except a sync |
| RaftOutages.RecoveryResult | node/consensus.py:702-714 | a recovery gives back a live follower that knows of no leader; only the vote is forgotten |
| RaftOutages.BackAsFollower | node/consensus.py:702-714 | after recover() the server leads nothing and refuses client writes, changing nothing, until it wins an election |
| RaftAvailability.WinnerCanWrite | node/consensus.py:342-450 | from any state, the first write at the winner of an election is acknowledged |
| RaftAvailability.MajorityServes | node/consensus.py:209-271 | from any state, if a majority is live and its most up-to-date member reaches the others, that member wins after at most as many lost elections as its term lies behind theirs, and its next write is acknowledged |
| RaftAvailability.AvailableAgain | node/consensus.py:209-450 | after any careful run, a live majority whose servers reach one another elects its most up-to-date member by repeated start_election, in an admissible run whose next write is acknowledged |
| RaftCalls.ElectionOk | node/consensus.py:209-271 | an election keeps the invariant, and only the winner's term gains a leader |
| RaftSteps.VoterVouches | node/consensus.py:326-340 | the election restriction: a voter that accepted a committed entry votes only for candidates that have it |
| RaftCalls.AppendOk | node/consensus.py:527-606 | a leader's append keeps the invariant; acceptance means the peer holds the leader's whole log |
| RaftCalls.CommittableIsChosen | node/consensus.py:642-648 | the count stands for a majority that accepted the entry in the current term |
| RaftCalls.CommitKeeps | node/consensus.py:610-651 | commit_entries keeps the invariant |
| RaftCalls.ClientOk | node/consensus.py:415-450 | a client write keeps the invariant and appends one entry of the current term |
| RaftCalls.SendOk | node/consensus.py:480-525 | the retry loop keeps the invariant |
| RaftCalls.RecoverOk | node/consensus.py:702-714 | recover keeps the invariant of logs and commits, whatever vote it clears |
| RaftElections.RecoverSealsIff | node/consensus.py:702-714 | recover leaves the term of the vote it clears sealed if and only if everyone has reached that term or enough others remember the vote |
| RaftCalls.SyncOk | node/consensus.py:733-758 | sync_from_leader keeps the invariant when its condition holds |
| RaftLimits.RecoverAllowsTwoLeaders | node/consensus.py:714 | a run in which the forgotten vote is cast again and two servers lead one term |
| RaftForgetting.ForgottenTermLedTwice | node/consensus.py:702-714 | if another server has led the term and one behind it is at least as up to date as a majority that does not remember that leader, up or down, then elections, partitions, heals and recover() of such servers lead to a second leader |
| RaftForgetting.SecondLeaderIff | node/consensus.py:702-714 | where a server behind the term is at least as up to date as every server that does not remember its leader, and nobody else leads it yet, some run without another recover() that clears a vote for that leader reaches a second one if and only if the term is not sealed |
| RaftForgetting.SealedForGood | node/consensus.py:209-271 | in a sealed term no other server ever takes office, in any run without a recover() that clears a vote for the leader |
| RaftForgetting.TakesOver | node/consensus.py:209-271 | such a server can be brought to lead the term although the voters are down or have voted for a loser |
| RaftForgetting.FreeMajorityElects | node/consensus.py:209-271 | a server behind a term that can gather a majority of free votes can be brought to lead it |
| RaftLimits.SyncKeepsAgreementIff | node/consensus.py:750-756 | after a sync the applied sequences of both servers agree if and only if the sync was safe to believe |
| RaftLimits.StaleSyncDiverges | node/consensus.py:750-756 | a run in which a stale leader's commit point makes two servers apply different messages |
| RaftServer.MergeWithLeader | node/consensus.py:588-597 | merging a matching leader log gives the leader's log or leaves an extension of it |
| RaftServer.MergeIsFirstConflict | node/consensus.py:588-597 | the entry loop keeps the log if all terms agree, else cuts at the first disagreement and appends the rest |
| RaftNodes.RaftNode.constructor | node/consensus.py:85-162 | a new node with the given peers is the fresh server from which runs start |
| RaftNodes.RaftNode.SetPeers | node/consensus.py:682-689 | replaces the peer list and nothing else |
| RaftNodes.RaftNode.RequestVote | node/consensus.py:273-340 | new state and answer are those of the vote handler whose safety is proved |
| RaftNodes.RaftNode.AppendEntries | node/consensus.py:527-606 | new state and answer are those of the append handler, all rejections included |
| RaftNodes.RaftNode.AppendNewEntries | node/consensus.py:587-597 | the loop over entries computes the merge |
| RaftNodes.RaftNode.ApplyCommittedEntries | node/consensus.py:653-678 | the loop applies the entries after last_applied up to the commit point, in order |
| RaftNodes.RaftNode.StartElection | node/consensus.py:209-271 | the whole cluster afterwards, and the answer, are those of the election step |
| RaftNodes.RaftNode.AskPeers | node/consensus.py:242-259 | the vote count and every peer's new state |
| RaftNodes.RaftNode.AskPeer | node/consensus.py:245-259 | one exchange, skipped when either side is cut off |
| RaftNodes.RaftNode.Decide | node/consensus.py:261-271 | takes office on a strict majority, steps back otherwise |
| RaftNodes.RaftNode.BecomeLeader | node/consensus.py:342-368 | leader state is set before the first heartbeats go out |
| RaftNodes.RaftNode.InitLeaderState | node/consensus.py:354-363 | next_index and match_index are reset for every peer |
| RaftNodes.RaftNode.SendHeartbeats | node/consensus.py:370-400 | every reachable peer handles one empty append |
| RaftNodes.RaftNode.SendHeartbeat | node/consensus.py:380-400 | one peer's new state |
| RaftNodes.RaftNode.ReceiveClientMessage | node/consensus.py:415-450 | the whole cluster afterwards, and the answer, are those of the client step |
| RaftNodes.RaftNode.ReplicateLog | node/consensus.py:452-478 | the whole cluster after replication |
| RaftNodes.RaftNode.SendAppendEntriesToPeer | node/consensus.py:480-525 | the retry loop ends and leaves both nodes as the backtracking function says |
| RaftNodes.RaftNode.SendRound | node/consensus.py:491-525 | one round of the retry loop |
| RaftNodes.RaftNode.CommitEntries | node/consensus.py:610-651 | the downward scan commits and applies what the commit function says |
| RaftNodes.RaftNode.CountReplicas | node/consensus.py:642-646 | counts the leader and the peers whose match_index reaches the entry |
| RaftNodes.RaftNode.SimulateCrash | node/consensus.py:691-700 | only liveness changes |
| RaftNodes.RaftNode.Recover | node/consensus.py:702-714 | term and log survive, the vote does not |
| RaftNodes.RaftNode.PartitionFrom | node/consensus.py:716-723 | only the partition set changes |
| RaftNodes.RaftNode.HealPartition | node/consensus.py:725-731 | only the partition set changes |
| RaftNodes.RaftNode.SyncFromLeader | node/consensus.py:733-758 | both nodes afterwards, and the answer, are those of the sync step |
| CausalDelivery.RunBalanced | node/time_sync.py:511-554 | in every run, timeouts included, accepted arrivals are exactly handed over plus buffered, and counters and ids are those of the messages handed over |
| CausalDelivery.CounterIsMaximum | node/time_sync.py:582-590 | a sender's counter is the largest of its delivered numbers, or 0 |
| CausalDelivery.FlushStuck | node/time_sync.py:538-554 | after a flush nothing in the buffer is deliverable or past its timeout |
| CausalDelivery.ArrivalJustified | node/time_sync.py:543-551 | in every run, timeouts included, a message is handed over only when deliverable at its turn or held for the whole timeout |
| CausalDelivery.HandingJustified | node/time_sync.py:543-551 | for each message of a run, the arrival on which it was handed over, and that it was then deliverable or past its timeout |
| CausalDelivery.RepeatTimedOut | node/time_sync.py:511-516 | in every run, timeouts included, a message with its sender's key comes out a second time only when that copy has been held for the whole timeout |
| DeliveryLimits.TimeoutOvertakes | node/time_sync.py:544-551 | a run in which number 2 of a sender comes out although number 1 never does |
| DeliveryLimits.TimeoutRepeats | node/time_sync.py:511-551 | a run in which a copy that arrived while the first was buffered comes out a second time |
| CausalDelivery.QuickRun | node/time_sync.py:536-580 | without timeouts every message was ready at its turn and nothing ready is left |
| CausalDelivery.CausalOrder | node/time_sync.py:556-590 | without timeouts each sender's messages come out numbered 1, 2, 3 and so on, never before a message their clock names, and never twice |
| CausalDelivery.TallyIsCount | node/time_sync.py:582-590 | a sender's counter is how many of its messages were handed over |
| Confluence.SameOutcome | node/time_sync.py:511-554 | the delivered set, the counters and what is left waiting are the same for every arrival order and any re-sent copies |
| Confluence.EmptiesIffOrderable | node/time_sync.py:536-580 | everything is handed over if and only if the messages sent are closed under dependencies and have no cycle |
| Confluence.BufferEmptiesIff | node/time_sync.py:536-580 | if each message arrives once, the buffer ends empty under the same condition and no other |
| Confluence.DeliveredIff | node/time_sync.py:536-580 | without timeouts, what is handed over is the largest part of the messages sent that is closed under dependencies and has no cycle |
| DeliveryOrder.OrderFixedIff | node/time_sync.py:519-541 | for any messages and no timeouts: they come out in the same order for every arrival order if and only if, of any two that can be handed over at all, one must come after the other |
| DeliveryOrder.ChainFixesOrder | node/time_sync.py:536-580 | two runs over the same messages whose deliverable part is one causal chain hand over the same sequence |
| DeliveryOrder.OutAsArrived | node/time_sync.py:511-554 | messages that arrive in causal order come out as they arrive and leave the buffer empty |
| DeliveryOrder.TwoNodesDiffer | node/time_sync.py:519-526 | two messages of two senders come out in either order, as they arrive, whatever their sort keys |
| Confluence.AllAccounted | node/time_sync.py:511-516 | every message sent has been handed over or waits in the buffer |
| Confluence.ArrivalOrderWins | node/time_sync.py:519-526 | a message that needs nothing comes out first if it arrives first, whatever the sort keys |
| Reorderer.SortSorts | node/time_sync.py:519-541 | the buffer sort orders by Lamport time, then timestamp, is a permutation and is stable |
| DeliveryTurns.ReadyInKeyOrder | node/time_sync.py:519-554 | without timeouts, of two messages ready when a flush begins the one with the smaller Lamport time is handed over first; the timestamp decides ties |
| DeliveryTurns.SweepInKeyOrder | node/time_sync.py:538-554 | one sweep hands messages over by Lamport time, then timestamp, timeouts included |
| DeliveryTurns.WaitersComeInKeyOrder | node/time_sync.py:519-554 | two messages that wait for a third come out after it by Lamport time, then timestamp, then as they arrived |
| Reorderer.FlushRound | node/time_sync.py:538-554 | one sweep loses nothing and the rounds chain into the whole flush |
| ReorderBuffer.MessageReorderer.constructor | node/time_sync.py:486-499 | an empty buffer with nothing delivered |
| ReorderBuffer.MessageReorderer.TryDeliver | node/time_sync.py:501-516 | buffer, counters, ids and the messages handed over, duplicates dropped |
| ReorderBuffer.MessageReorderer.Flush | node/time_sync.py:528-554 | the sort-and-rescan loop ends and equals the flush function |
| ReorderBuffer.MessageReorderer.SweepBuffer | node/time_sync.py:542-554 | one pass over the sorted buffer, counters changing under way |
| ReorderBuffer.MessageReorderer.MarkDelivered | node/time_sync.py:582-590 | the id is remembered and the sender's counter never falls |
| FaultCluster.NoMessageLost | node/fault.py:452-527 | in every run each id accepted from a client is in the accepting node's table and, for each of its peers, in the peer's table or still queued for it |
| FaultStore.ReplyExactly | node/fault.py:447-485 | invalid exactly if a field is missing or the id empty, duplicate exactly if the table has the id, stored field by field exactly otherwise; the first two change nothing and ask nobody |
| FaultCluster.AcceptedOnce | node/fault.py:468-475 | in every run an id accepted by a node is answered as a duplicate by it ever after |
| FaultCluster.IdleStoresAgree | node/fault.py:508-527 | in a full mesh with nothing queued every table holds exactly the accepted ids |
| FaultCluster.IdleTablesEqual | node/fault.py:77-98 | if clients reuse no id, those tables are equal, contents included |
| FaultCluster.RoundConverges | node/fault.py:565-590 | from any reachable state one working retry turn of every node empties all queues and puts every accepted id in every table |
| FaultCluster.RetryLeaves | node/fault.py:568-585 | a retry turn leaves queued exactly the entries whose peer is marked dead or did not answer; the message of every entry that leaves is in its peer's table |
| FaultStore.RetryExactly | node/fault.py:596-614 | which queued entries a retry sends, and which it leaves: those for other peers and those not answered; an id without a row is dropped |
| FaultCluster.StepKeeps | node/fault.py:452-614 | handlers, retries, recoveries, pulls, late pushes and liveness flips all keep the no-loss invariant |
| FaultCluster.StoredIsReplicas | node/fault.py:487-506 | in whatever order and however often pushes arrive, the peer's table ends the same |
| FaultCluster.PullCatchesUp | node/fault.py:554-563 | after a pull the node holds every id of each peer it fetched from |
| FaultCluster.RowsWereSubmitted | node/fault.py:77-98 | every row of every table was submitted by a client |
| FaultStore.CoverageNeedsFullFactor | node/fault.py:508-527 | every peer acknowledges a new message or is queued for it, whatever the network answers, if and only if the replication factor allows for all live peers |
| FaultStore.AcceptedReach | node/fault.py:477-485 | the reply counts the acknowledgements; unless the factor is reached, every peer acknowledged or is queued |
| FaultStore.PushLiveShape | node/fault.py:513-518 | peers are tried in order without gaps until enough have acknowledged |
| FaultStore.MergeAddsMissing | node/fault.py:100-128 | a batch merge adds exactly the missing ids and keeps every old row |
| FaultStore.MergeKeepsFirst | node/fault.py:110-125 | of several new rows with one id the first is kept |
| FaultStore.MergeInventsNothing | node/fault.py:110-125 | every new row comes from the batch |
| FaultManagement.PersistentMessageStore.SaveMessage | node/fault.py:77-98 | inserts exactly when the id is new, and says so |
| FaultManagement.PersistentMessageStore.MergeMessages | node/fault.py:100-128 | merges the batch and returns by how many rows the table grew |
| FaultManagement.PersistentMessageStore.GetAllMessages | node/fault.py:130-134 | lists the rows, one for each id, and nothing else |
| FaultManagement.PendingReplicationQueue.Enqueue | node/fault.py:324-330 | adds the entry, once |
| FaultManagement.PendingReplicationQueue.Drain | node/fault.py:332-342 | returns each id queued for the peer once and removes exactly those |
| FaultManagement.FaultToleranceManager.constructor | node/fault.py:356-394 | empty tables, at least factor 1, every peer presumed alive |
| FaultManagement.FaultToleranceManager.HandleClientMessage | node/fault.py:447-485 | both tables, the reply and the peers tried, for messages with missing fields or an empty id, duplicates and new ones |
| FaultManagement.FaultToleranceManager.HandleReplicaMessage | node/fault.py:487-506 | stores a complete new message and nothing else |
| FaultManagement.FaultToleranceManager.ReplicateToLivePeers | node/fault.py:508-527 | live peers are tried until enough answered, failures and dead peers are queued |
| FaultManagement.FaultToleranceManager.PushToLive | node/fault.py:513-521 | the loop over live peers with its early exit |
| FaultManagement.FaultToleranceManager.EnqueueForDead | node/fault.py:523-525 | every peer not marked alive is queued |
| FaultManagement.FaultToleranceManager.RecoverFromPeers | node/fault.py:554-563 | merges what every answering peer returns and counts the growth |
| FaultManagement.FaultToleranceManager.RetryLivePeers | node/fault.py:568-590 | one turn of the retry loop, peer by peer, equals retrying all live peers at once |
| FaultManagement.FaultToleranceManager.OnPeerRecovered | node/fault.py:596-614 | what was sent, what stays queued, and how many answered |
| FaultManagement.FaultToleranceManager.Resend | node/fault.py:599-611 | failures go back into the queue, ids without a row are skipped |
| FailureDetection.DeadExactly | node/fault.py:243-271 | after any ping history a peer is marked dead if and only if its last `threshold` pings all missed |
| FailureDetection.CallbackExactly | node/fault.py:261-266 | the recovery callback is launched once for each change from dead to alive, in that order, and at no other time |
| FailureDetection.LivePeers | node/fault.py:287-289 | lists exactly the peers marked alive, each once |
| FailureDetection.LiveInTableOrder | node/fault.py:287-289 | the list follows the order of the status table, so peers are tried in that order |
| FailureDetection.FailureDetector.constructor | node/fault.py:193-217 | every peer starts alive with no misses |
| FailureDetection.FailureDetector.PingPeer | node/fault.py:235-271 | counter, mark and callback after one ping |
| FailureDetection.FailureDetector.GetLivePeers | node/fault.py:287-289 | the live peers in table order |
| Causality.ClockCharacterisesCausality | node/replication.py:95-126 | over every run on a fixed node set, for distinct events, one happened before the other if and only if happened_before says so of their clocks |
| Causality.ConcurrentExactly | node/replication.py:129-137 | concurrent holds if and only if neither event happened before the other |
| Causality.EntryBound | node/replication.py:95-110 | a node's own entry counts its events and nobody's entry runs ahead |
| Causality.KnownIsPast | node/replication.py:105-110 | an entry counts an event only if a causal chain from that event reached the node |
| VectorClocks.DocumentedOrderIff | node/replication.py:116-126 | the comparison of a clock with all the clocks of a node set meets its documentation if and only if the clock has no positive entry outside the set, or the set is empty |
| VectorClocks.PrecedesIff | node/replication.py:116-126 | the documented order holds if and only if the comparison says so and the first clock has no positive entry that the second lacks |
| VectorClocks.BothWays | node/replication.py:124-126 | two clocks over different node sets, each reported as before the other |
| VectorClocks.VectorClock.constructor | node/replication.py:90-93 | every listed node at zero |
| VectorClocks.VectorClock.Tick | node/replication.py:95-98 | advances the own entry and returns the snapshot |
| VectorClocks.VectorClock.Update | node/replication.py:100-110 | the loop computes the entrywise maximum, then the own entry advances |
| LamportClocks.CauseHasSmallerClock | node/time_sync.py:60-62 | if one event happened before another its clock is smaller |
| LamportClocks.ClockIsLongestChain | node/time_sync.py:88-141 | an event's clock is the length of the longest causal chain that ends in it |
| LamportClocks.LamportClock.Tick | node/time_sync.py:88-99 | advances by one |
| LamportClocks.LamportClock.Update | node/time_sync.py:101-141 | one more than the larger of the two clocks, negative values clamped to zero |
| Median.MajorityHoldsMedian | node/time_sync.py:371 | if more than half of the values lie in a range so does the median, for odd and even lengths |
| Median.MajorityIff | node/time_sync.py:371 | a number of values in the range guarantees it for the median if and only if it is more than half |
| Median.MedianIsMiddle | node/time_sync.py:371 | as many values stand before the median as after it; of an even number it is halfway between the middle two |
| Median.SortedSorts | node/time_sync.py:371 | the sort behind the median is an ascending permutation |
| TimeSync.EstimateErrorBound | node/time_sync.py:361-371 | if more than half of the window are genuine round trips of at most R, the estimate is within R/2 of the true offset, whatever the rest is |
| TimeSync.GenuineIsClose | node/time_sync_service.py:95-110 | one round trip of at most R misses the true offset by at most R/2 |
| TimeSync.WindowIsLastAccepted | node/time_sync.py:361-371 | after any run the windows hold the last accepted samples and their positive round trips since the reference changed, and the estimate is the median |
| TimeSync.SlowPathFreezesIff | node/time_sync.py:330-359 | a stretch of a run rejects everything, and leaves the estimate where it was, if and only if every sample in it exceeds three times the positive median of the history before it |
| TimeSync.RejectedIff | node/time_sync.py:330-359 | in every run a sample is rejected exactly when three round trips are held and it takes more than three times their positive median |
| TimeSync.ThresholdExample | node/time_sync.py:330-343 | three seconds against three round trips of one second are taken in, more is not; two round trips reject nothing |
| TimeSync.FreezeExample | node/time_sync.py:330-359 | three good samples and then any number of slow ones, none of which is taken in |
| TimeSync.TimeSyncer.constructor | node/time_sync.py:212-225 | no samples, offset zero |
| TimeSync.TimeSyncer.SetReference | node/time_sync.py:248-258 | both windows and the offset are cleared |
| TimeSync.TimeSyncer.IsRttOutlier | node/time_sync.py:330-343 | an outlier needs three earlier round trips and exceeds three times their positive median |
| TimeSync.TimeSyncer.AddSample | node/time_sync.py:345-371 | a rejected sample changes only the reject count; an accepted one slides the windows and moves the estimate |

The methods AppendNewEntries, AskPeers, AskPeer, Decide, InitLeaderState, SendHeartbeat, SendRound, CountReplicas,
SweepBuffer, PushToLive, EnqueueForDead and Resend are parts of longer methods of the program, split off so that each
loop has its own contract.

## Left out

- HintHasLed: `get_leader` promises the current leader; the code keeps an earlier one while its holder stands for election, so the hint is then only a past leader.
- ElectionSafety: holds for careful runs; where a term is not sealed but no server behind it is at least as up to date as a majority that does not remember its leader, nothing is said about whether logs could still change so that one is.
- LogMatching: for runs in which no term is led twice and syncs are believable.
- LeaderCompleteness: for the same runs.
- StateMachineSafety: for the same runs.
- CommittedForever: for the same runs.
- DurableAcknowledgement: for the same runs.
- AppendEntries: previous indexes below -1, which are no index before an entry, are not modelled; no caller sends one.
- SetPeers: the cluster theorems are for a full mesh whose peer lists do not change during the run; a node is never its own peer.
- TryDeliver: the callback leaves the message unchanged; the callback in node/replication.py:380-383 overwrites the clock first. Arrival and flush times are inputs, and the number and string spellings of a clock key are one key.
- CausalOrder: runs without timeouts; with timeouts DeliveryLimits has runs in which messages overtake and repeat, and ArrivalJustified and RepeatTimedOut say what still holds.
- HandleClientMessage: fields are present or missing and have their types; ids that are not strings are not modelled.
- NoMessageLost: each handler, retry turn and pull is atomic, and liveness does not change between the two reads at node/fault.py:509 and node/fault.py:523. A process that dies between draining a queue and putting failures back is not modelled. A True answer means that the peer handled the push; any other push may or may not have arrived, and may arrive later.
- RoundConverges: liveness and progress are conditional on a round in which every push is answered; nothing is said about how long that takes.
- PingPeer: latencies and their histogram are not modelled.
- Tick: Lamport and vector clocks are over unbounded integers, as in the program; anomaly records are not modelled.
- AddSample: reals stand for floats, so rounding is not modelled; the window size is at least 1, since the median of an empty window raises.
- EstimateErrorBound: equal-rate clocks; the simulated fallback sample of node/time_sync.py:322-328 counts among the samples that may be anything.
- gRPC servicers and stubs, Flask routes, SQLite, threads, locks, sleeping, id generation and wall clocks: tables are maps and sets, peers' answers and times are inputs.
- The quorum read of node/replication.py:300-324: a failed peer read still counts toward R, so the code does not keep the claim.
- The end-to-end path from node/server.py into the reorder buffer: it sends empty vector clocks, so it does not order messages.
- What `apply_committed_entry` stores (node/replication.py:418-449): a fresh id, a timestamp and clock values for each entry it is handed; the model stops at the sequence of entries.
- FaultInjector, SyncConfig, SyncLogger, metrics, the adaptive sync interval and log pruning: monitoring only.
