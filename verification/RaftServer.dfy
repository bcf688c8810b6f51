/** One Raft server as a value, and what its RPC handlers do to it.
    The class in RaftNode.dfy updates the same fields in place and is proved against these functions. */
module RaftServer {

  datatype Option<T> = None | Some(value: T)

  datatype Role = Follower | Candidate | Leader

  datatype LogEntry = LogEntry(term: nat, message: string)

  type Log = seq<LogEntry>

  /** A log index, or -1 for "none yet". */
  type Index = k: int | -1 <= k witness -1

  /** `applied` records the calls made to apply_committed_entry, oldest first. */
  datatype Server = Server(
    peers: seq<int>,
    term: nat,
    votedFor: Option<int>,
    log: Log,
    commitIndex: Index,
    lastApplied: Index,
    nextIndex: map<int, nat>,
    matchIndex: map<int, Index>,
    role: Role,
    leaderId: int,
    active: bool,
    partitionedFrom: set<int>,
    applied: Log)

  function Min(a: int, b: int): int {
    if a < b then a else b
  }

  function LastTerm(log: Log): nat {
    if log == [] then 0 else log[|log| - 1].term
  }

  function NextOf(s: Server, p: int): nat {
    if p in s.nextIndex then s.nextIndex[p] else 0
  }

  function MatchOf(s: Server, p: int): Index {
    if p in s.matchIndex then s.matchIndex[p] else -1
  }

  /** The election restriction: the candidate's log is at least as up to date. */
  predicate UpToDate(lastIndex: int, lastTerm: nat, log: Log) {
    lastTerm > LastTerm(log) || (lastTerm == LastTerm(log) && lastIndex >= |log| - 1)
  }

  function HandleVote(s: Server, candidate: int, term: nat, lastIndex: int, lastTerm: nat): (Server, bool) {
    if !s.active || term < s.term then (s, false) else
    var s1 := if term > s.term then s.(term := term, role := Follower, votedFor := None, leaderId := -1) else s;
    if s1.votedFor != None && s1.votedFor != Some(candidate) then (s1, false)
    else if !UpToDate(lastIndex, lastTerm, s.log) then (s1, false)
    else (s1.(votedFor := Some(candidate)), true)
  }

  /** Rule 3 of append_entries: walk over the entries, skip those already present, cut at the first
      one whose term differs, append the rest. */
  function Merge(log: Log, at: nat, entries: Log): (r: Log)
    requires at <= |log|
    ensures at + |entries| <= |r|
    decreases |entries|
  {
    if entries == [] then log
    else if at < |log| && log[at].term == entries[0].term then Merge(log, at + 1, entries[1..])
    else Merge(log[..at] + [entries[0]], at + 1, entries[1..])
  }

  /** Hand every committed entry not yet handed over to the replication module. */
  function Apply(s: Server): Server
    requires s.commitIndex < |s.log|
  {
    if s.lastApplied < s.commitIndex
    then s.(lastApplied := s.commitIndex, applied := s.applied + s.log[s.lastApplied + 1..s.commitIndex + 1])
    else s
  }

  /** Accepting a sender as leader of `term`, before any look at the log. */
  function Follow(s: Server, leader: int, term: nat): Server {
    s.(term := term, votedFor := if term > s.term then None else s.votedFor, role := Follower, leaderId := leader)
  }

  /** Rule 4 of append_entries. */
  function LearnCommit(s: Server, leaderCommit: Index): Server
  {
    if leaderCommit > s.commitIndex
    then Apply(s.(commitIndex := Min(leaderCommit, |s.log| - 1)))
    else s
  }

  function HandleAppend(s: Server, leader: int, term: nat, prev: Index, prevTerm: nat,
                        entries: Log, leaderCommit: Index): (Server, bool)
  {
    if !s.active || term < s.term then (s, false) else
    var s1 := Follow(s, leader, term);
    if prev >= |s.log| then (s1, false)
    else if prev >= 0 && s.log[prev].term != prevTerm then (s1.(log := s.log[..prev]), false)
    else (LearnCommit(s1.(log := Merge(s.log, prev + 1, entries)), leaderCommit), true)
  }

  /** Two logs match when equal terms at an index mean equal logs through that index. */
  ghost predicate Matching(a: Log, b: Log) {
    forall n | 0 <= n < |a| && n < |b| && a[n].term == b[n].term :: a[..n + 1] == b[..n + 1]
  }

  /** Merging a matching leader log from a point where the two agree gives the leader's log,
      or leaves a log that already extends it. */
  lemma {:induction false} MergeWithLeader(log: Log, leaderLog: Log, at: nat)
    requires Matching(log, leaderLog)
    requires at <= |log| && at <= |leaderLog| && log[..at] == leaderLog[..at]
    ensures var r := Merge(log, at, leaderLog[at..]);
            leaderLog <= r && (r == leaderLog || r == log)
    decreases |leaderLog| - at
  {
    if at == |leaderLog| {
      assert leaderLog[at..] == [];
    } else {
      var es := leaderLog[at..];
      assert es[1..] == leaderLog[at + 1..];
      if at < |log| && log[at].term == es[0].term {
        MergeWithLeader(log, leaderLog, at + 1);
      } else {
        var cut := log[..at] + [es[0]];
        assert cut == leaderLog[..at + 1];
        MergePrefix(leaderLog, at + 1);
      }
    }
  }

  /** Appending the rest of a log to one of its prefixes rebuilds it. */
  lemma {:induction false} MergePrefix(log: Log, at: nat)
    requires at <= |log|
    ensures Merge(log[..at], at, log[at..]) == log
    decreases |log| - at
  {
    if at < |log| {
      var es := log[at..];
      assert es[1..] == log[at + 1..];
      assert log[..at][..at] + [es[0]] == log[..at + 1];
      MergePrefix(log, at + 1);
    } else {
      assert log[..at] == log;
    }
  }

  /** Where the terms differ, or the log ends, the log is cut and the remaining entries appended. */
  lemma MergeCuts(log: Log, at: nat, entries: Log)
    requires at <= |log| && entries != [] && (at == |log| || log[at].term != entries[0].term)
    ensures Merge(log, at, entries) == log[..at] + entries
  {
    var whole := log[..at] + entries;
    assert log[..at] + [entries[0]] == whole[..at + 1];
    assert entries[1..] == whole[at + 1..];
    MergePrefix(whole, at + 1);
  }

  lemma MergeSkips(log: Log, at: nat, entries: Log)
    requires at < |log| && entries != [] && log[at].term == entries[0].term
    ensures Merge(log, at, entries) == Merge(log, at + 1, entries[1..])
  {
  }

  lemma MergeNone(log: Log, at: nat)
    requires at <= |log|
    ensures Merge(log, at, []) == log
  {
  }

  /** Merge without a leader's help: it keeps the log when every term agrees, and otherwise cuts at
      the first disagreement (or the end of the log) and appends the remaining entries. */
  lemma {:induction false} MergeIsFirstConflict(log: Log, at: nat, entries: Log, j: nat)
    requires at <= |log| && j <= |entries| && at + j <= |log|
    requires forall i | 0 <= i < j :: log[at + i].term == entries[i].term
    requires j == |entries| || at + j == |log| || log[at + j].term != entries[j].term
    ensures Merge(log, at, entries) == if j == |entries| then log else log[..at + j] + entries[j..]
    decreases j
  {
    hide Merge;
    if j > 0 {
      var rest := entries[1..];
      assert log[at + 0].term == entries[0].term;
      MergeSkips(log, at, entries);
      forall i | 0 <= i < j - 1 ensures log[at + 1 + i].term == rest[i].term {
        assert log[at + (i + 1)].term == entries[i + 1].term;
      }
      MergeIsFirstConflict(log, at + 1, rest, j - 1);
      assert rest[j - 1..] == entries[j..];
    } else if entries == [] {
      MergeNone(log, at);
    } else {
      MergeCuts(log, at, entries);
    }
  }
}
