/** The two RPCs rule by rule, as their documentation numbers them: what each answer means and what it leaves behind. */
module RaftRules {
  import opened RaftServer

  // ---- request_vote ----

  /** A vote is granted exactly by a live server in no later term, free or already given to this candidate in that term,
      whose log is not more up to date: the last entry of the higher term wins, then the longer log. */
  lemma VoteGrantedIff(s: Server, i: int, t: nat, lastIndex: int, lastTerm: nat)
    ensures HandleVote(s, i, t, lastIndex, lastTerm).1 <==>
      && s.active && s.term <= t
      && (s.term == t ==> s.votedFor == None || s.votedFor == Some(i))
      && var own := if s.log == [] then 0 else s.log[|s.log| - 1].term;
         own < lastTerm || (own == lastTerm && |s.log| <= lastIndex + 1)
  {
  }

  /** A request leaves at most its term and, if granted, the vote: nothing of a refused candidate stays behind. */
  lemma VoteLeaves(s: Server, i: int, t: nat, lastIndex: int, lastTerm: nat)
    ensures var (u, granted) := HandleVote(s, i, t, lastIndex, lastTerm);
      && u == s.(term := u.term, votedFor := u.votedFor, role := u.role, leaderId := u.leaderId)
      && u.term == (if s.active && t > s.term then t else s.term)
      && (u.term == s.term ==> u.role == s.role && u.leaderId == s.leaderId)
      && (u.term > s.term ==> u.role == Follower && u.leaderId == -1)
      && u.votedFor == (if granted then Some(i) else if u.term > s.term then None else s.votedFor)
  {
  }

  /** A request refused for its log never changes the answer to another request. */
  lemma RefusalForgotten(s: Server, i: int, t: nat, lastIndex: int, lastTerm: nat,
                         j: int, index: int, term: nat)
    requires !UpToDate(lastIndex, lastTerm, s.log)
    ensures HandleVote(HandleVote(s, i, t, lastIndex, lastTerm).0, j, t, index, term).1 ==
            HandleVote(s, j, t, index, term).1
  {
  }

  /** A vote given binds for the term: no other candidate gets it, and the same one gets it again when it asks again. */
  lemma GrantBinds(s: Server, i: int, t: nat, lastIndex: int, lastTerm: nat, j: int, index: int, term: nat)
    requires HandleVote(s, i, t, lastIndex, lastTerm).1
    ensures var u := HandleVote(s, i, t, lastIndex, lastTerm).0;
      && (HandleVote(u, j, t, index, term).1 ==> j == i)
      && HandleVote(u, i, t, lastIndex, lastTerm) == (u, true)
  {
  }

  // ---- append_entries ----

  /** An append is accepted exactly by a live server in no later term that holds the previous entry. */
  lemma AppendAcceptedIff(s: Server, i: int, t: nat, prev: Index, prevTerm: nat, entries: Log, commit: Index)
    ensures HandleAppend(s, i, t, prev, prevTerm, entries, commit).1 <==>
      s.active && s.term <= t && (prev == -1 || (prev < |s.log| && s.log[prev].term == prevTerm))
  {
    hide Merge;
  }

  /** An append of no earlier term to a live server makes it a follower of the sender in its term, accepted or not; on
      entering the term the vote is cleared. */
  lemma AppendFollows(s: Server, i: int, t: nat, prev: Index, prevTerm: nat, entries: Log, commit: Index)
    requires s.active && s.term <= t
    ensures var u := HandleAppend(s, i, t, prev, prevTerm, entries, commit).0;
      && u.term == t && u.role == Follower && u.leaderId == i && u.active
      && u.votedFor == (if s.term < t then None else s.votedFor)
      && u.peers == s.peers && u.partitionedFrom == s.partitionedFrom
      && u.nextIndex == s.nextIndex && u.matchIndex == s.matchIndex
  {
    hide Merge;
  }

  /** A stale append, and one to a server that is down, changes nothing. Where the previous entry is missing the log
      stays; where it has another term, that entry and all after it are cut and the ones before it stay. Nothing is
      committed or applied by a refusal. */
  lemma RefusedAppend(s: Server, i: int, t: nat, prev: Index, prevTerm: nat, entries: Log, commit: Index)
    requires !HandleAppend(s, i, t, prev, prevTerm, entries, commit).1
    ensures var u := HandleAppend(s, i, t, prev, prevTerm, entries, commit).0;
      && (if s.active && s.term <= t && prev < |s.log| then |u.log| == prev && u.log <= s.log else u.log == s.log)
      && u.commitIndex == s.commitIndex && u.lastApplied == s.lastApplied && u.applied == s.applied
      && (!s.active || t < s.term ==> u == s)
  {
    hide Merge;
  }

  /** The first j new entries have the terms of the entries they meet; the next one, if any, has not or meets none. */
  ghost predicate FirstConflict(log: Log, at: nat, entries: Log, j: nat) {
    && j <= |entries| && at + j <= |log|
    && (forall k | 0 <= k < j :: log[at + k].term == entries[k].term)
    && (j == |entries| || at + j == |log| || log[at + j].term != entries[j].term)
  }

  lemma {:induction false} SomeFirstConflict(log: Log, at: nat, entries: Log, from: nat) returns (j: nat)
    requires at + from <= |log| && from <= |entries|
    requires forall k | 0 <= k < from :: log[at + k].term == entries[k].term
    ensures FirstConflict(log, at, entries, j)
    decreases |entries| - from
  {
    if from == |entries| || at + from == |log| || log[at + from].term != entries[from].term {
      j := from;
    } else {
      j := SomeFirstConflict(log, at, entries, from + 1);
    }
  }

  /** An accepted append keeps the log whole if no entry conflicts; otherwise it keeps the log up to the first conflict,
      or its end, and goes on with the leader's entries. The commit point then moves up to the leader's, as far as the
      log reaches. */
  lemma AcceptedAppend(s: Server, i: int, t: nat, prev: Index, prevTerm: nat, entries: Log, commit: Index)
    returns (j: nat)
    requires HandleAppend(s, i, t, prev, prevTerm, entries, commit).1
    ensures FirstConflict(s.log, prev + 1, entries, j)
    ensures var u := HandleAppend(s, i, t, prev, prevTerm, entries, commit).0;
      && u.log == (if j == |entries| then s.log else s.log[..prev + 1 + j] + entries[j..])
      && (commit > s.commitIndex ==> u.commitIndex == Min(commit, |u.log| - 1))
      && (commit <= s.commitIndex ==> u.commitIndex == s.commitIndex && u.applied == s.applied)
  {
    hide Merge;
    j := SomeFirstConflict(s.log, prev + 1, entries, 0);
    MergeIsFirstConflict(s.log, prev + 1, entries, j);
  }
}
