/** The inductive invariant of the cluster. It speaks of a history that the code does not store:
    who led each term with which log, and how much of that log each server accepted while in that
    term. */
module RaftInvariant {
  import opened RaftServer
  import opened RaftCluster

  datatype Reign = Reign(leader: int, log: Log)

  /** acks[v, t] is the length of the term-t leader's log that v has accepted in term t. */
  datatype History = History(reigns: map<nat, Reign>, acks: map<(int, nat), nat>)

  ghost function Ack(h: History, v: int, t: nat): nat {
    if (v, t) in h.acks then h.acks[(v, t)] else 0
  }

  ghost predicate Quorum(c: Cluster, q: set<int>) {
    q <= c.Keys && 2 * |q| > |c|
  }

  // ---- logs ----

  /** The log through k is a prefix of the log of the leader of entry k's term. */
  ghost predicate EntryOk(h: History, log: Log, k: nat, bound: nat)
    requires k < |log|
  {
    var t := log[k].term;
    1 <= t <= bound && t in h.reigns && log[..k + 1] <= h.reigns[t].log
  }

  ghost predicate LogOk(h: History, log: Log, bound: nat) {
    forall k | 0 <= k < |log| :: EntryOk(h, log, k, bound)
  }

  // ---- elections and votes ----

  /** The set meets every majority. */
  ghost predicate Blocks(c: Cluster, q: set<int>) {
    q <= c.Keys && 2 * |q| >= |c|
  }

  /** Servers that have reached term t. */
  ghost function AtOrPast(c: Cluster, t: nat): set<int> {
    set v | v in c && t <= c[v].term
  }

  ghost predicate ReignOk(c: Cluster, h: History, t: nat)
    requires t in h.reigns
  {
    1 <= t && Blocks(c, AtOrPast(c, t)) && LogOk(h, h.reigns[t].log, t)
  }

  ghost predicate ReignsOk(c: Cluster, h: History) {
    forall t | t in h.reigns :: ReignOk(c, h, t)
  }

  // ---- servers ----

  ghost predicate LeaderOk(h: History, i: int, s: Server) {
    s.role == Leader ==>
      && s.term in h.reigns
      && h.reigns[s.term].leader == i
      && h.reigns[s.term].log == s.log
      && Ack(h, i, s.term) == |s.log|
      && forall p | p in s.peers :: MatchOk(h, s, p)
  }

  /** What the leader believes about p is true of what p accepted in this term. */
  ghost predicate MatchOk(h: History, s: Server, p: int) {
    NextOf(s, p) <= |s.log| && MatchOf(s, p) + 1 <= Ack(h, p, s.term)
  }

  ghost predicate ServerOk(h: History, i: int, s: Server) {
    LogOk(h, s.log, s.term) && LeaderOk(h, i, s)
  }

  ghost predicate ServersOk(c: Cluster, h: History) {
    forall i | i in c :: ServerOk(h, i, c[i])
  }

  // ---- acceptances ----

  ghost predicate AckOk(c: Cluster, h: History, v: int, t: nat) {
    Ack(h, v, t) > 0 ==>
      && v in c && t in h.reigns && Ack(h, v, t) <= |h.reigns[t].log| && t <= c[v].term
      && (t == c[v].term ==> h.reigns[t].log[..Ack(h, v, t)] <= c[v].log)
  }

  ghost predicate AcksOk(c: Cluster, h: History) {
    forall v, t :: AckOk(c, h, v, t)
  }

  // ---- what can still be committed ----

  /** Servers that accepted k entries in term t, or still may. */
  ghost function Supporters(c: Cluster, h: History, t: nat, k: nat): set<int> {
    set v | v in c && (c[v].term <= t || Ack(h, v, t) >= k)
  }

  /** Servers that did accept k entries in term t. */
  ghost function Holders(c: Cluster, h: History, t: nat, k: nat): set<int> {
    set v | v in c && Ack(h, v, t) >= k
  }

  /** Length k of the term-t leader's log ends in an entry of term t. */
  ghost predicate Own(h: History, t: nat, k: nat) {
    t in h.reigns && 1 <= k <= |h.reigns[t].log| && h.reigns[t].log[k - 1].term == t
  }

  ghost predicate Choosable(c: Cluster, h: History, t: nat, k: nat) {
    Own(h, t, k) && Quorum(c, Supporters(c, h, t, k))
  }

  ghost predicate Chosen(c: Cluster, h: History, t: nat, k: nat) {
    Own(h, t, k) && Quorum(c, Holders(c, h, t, k))
  }

  ghost function Prefix(h: History, t: nat, k: nat): Log
    requires Own(h, t, k)
  {
    h.reigns[t].log[..k]
  }

  /** Every later leader has the first k entries of term t's leader. */
  ghost predicate LaterLeadersHave(h: History, t: nat, k: nat)
    requires Own(h, t, k)
  {
    forall u | u in h.reigns && t < u :: Prefix(h, t, k) <= h.reigns[u].log
  }

  /** So does every server that accepted them. */
  ghost predicate HoldersHave(c: Cluster, h: History, t: nat, k: nat)
    requires Own(h, t, k)
  {
    forall v | v in Holders(c, h, t, k) :: Prefix(h, t, k) <= c[v].log
  }

  /** Whatever can still be chosen is safe. */
  ghost predicate Complete(c: Cluster, h: History) {
    forall t: nat, k: nat | Choosable(c, h, t, k) :: LaterLeadersHave(h, t, k) && HoldersHave(c, h, t, k)
  }

  // ---- commits ----

  /** p is a prefix of something chosen in a term up to bound. */
  ghost predicate Certified(c: Cluster, h: History, p: Log, bound: nat) {
    exists t: nat, k: nat | t <= bound && Chosen(c, h, t, k) :: p <= Prefix(h, t, k)
  }

  ghost predicate CommitOk(c: Cluster, h: History, s: Server) {
    && s.lastApplied == s.commitIndex < |s.log|
    && s.applied == s.log[..s.commitIndex + 1]
    && (s.commitIndex >= 0 ==> Certified(c, h, s.log[..s.commitIndex + 1], s.term))
  }

  ghost predicate CommitsOk(c: Cluster, h: History) {
    forall i | i in c :: CommitOk(c, h, c[i])
  }

  ghost predicate Inv(c: Cluster, h: History) {
    Mesh(c) && ReignsOk(c, h) && ServersOk(c, h) && AcksOk(c, h) && Complete(c, h) && CommitsOk(c, h)
  }

  // ---- progress ----

  /** The only terms that gained a leader are those that i leads now. */
  ghost predicate NewReigns(c': Cluster, h: History, h': History) {
    forall t | t in h'.reigns && t !in h.reigns :: Leads(c', h'.reigns[t].leader, t)
  }

  ghost predicate Leads(c: Cluster, i: int, t: nat) {
    i in c && c[i].role == Leader && c[i].term == t
  }

  ghost predicate HistoryGrows(h: History, h': History) {
    && (forall t | t in h.reigns ::
          t in h'.reigns && h'.reigns[t].leader == h.reigns[t].leader && h.reigns[t].log <= h'.reigns[t].log)
    && forall v, t :: Ack(h, v, t) <= Ack(h', v, t)
  }

  /** Terms and commit points only move forward, and committed entries stay where they are. */
  ghost predicate ServerAdvances(s: Server, s': Server) {
    && s'.peers == s.peers && s.term <= s'.term && s.commitIndex <= s'.commitIndex
    && s.applied <= s'.applied
    && Committed(s) <= s'.log
  }

  ghost function Committed(s: Server): Log {
    if s.commitIndex < |s.log| then s.log[..s.commitIndex + 1] else s.log
  }

  /** What a server accepted in a term it has left stays as it was. */
  ghost predicate AcksClosed(c: Cluster, h: History, h': History) {
    forall v, t: nat | v in c && t < c[v].term :: Ack(h', v, t) == Ack(h, v, t)
  }

  ghost predicate Advances(c: Cluster, h: History, c': Cluster, h': History) {
    && c'.Keys == c.Keys && HistoryGrows(h, h') && AcksClosed(c, h, h')
    && forall i | i in c :: ServerAdvances(c[i], c'[i])
  }

  // ---- first consequences ----

  lemma LogsMatch(h: History, a: Log, ba: nat, b: Log, bb: nat)
    requires LogOk(h, a, ba) && LogOk(h, b, bb)
    ensures Matching(a, b)
  {
    forall n | 0 <= n < |a| && n < |b| && a[n].term == b[n].term
      ensures a[..n + 1] == b[..n + 1]
    {
      assert EntryOk(h, a, n, ba) && EntryOk(h, b, n, bb);
    }
  }

  /** Terms never decrease along a log. */
  lemma TermsGrow(c: Cluster, h: History, log: Log, bound: nat, j: nat, k: nat)
    requires ReignsOk(c, h) && LogOk(h, log, bound) && j <= k < |log|
    ensures 1 <= log[j].term <= log[k].term <= bound
  {
    assert EntryOk(h, log, k, bound);
    var t := log[k].term;
    var l := h.reigns[t].log;
    assert l[j] == log[j] && l[k] == log[k];
    assert ReignOk(c, h, t) && EntryOk(h, l, j, t);
  }

  /** Two majorities share a member. */
  lemma QuorumsMeet(c: Cluster, a: set<int>, b: set<int>) returns (w: int)
    requires Quorum(c, a) && Quorum(c, b)
    ensures w in a && w in b
  {
    Within(a + b, c.Keys);
    assert |c.Keys| == |c|;
    assert exists v :: v in a && v in b by {
      assert (forall v | v in a :: v !in b) ==> a !! b;
    }
    w :| w in a && w in b;
  }

  /** So does a majority with any set that blocks one. */
  lemma BlocksMeets(c: Cluster, a: set<int>, b: set<int>) returns (w: int)
    requires Blocks(c, a) && Quorum(c, b)
    ensures w in a && w in b
  {
    BlocksExcludes(c, a, b);
    assert exists v :: v in a && v in b by {
      assert (forall v | v in a :: v !in b) ==> a !! b;
    }
    w :| w in a && w in b;
  }

  lemma BlocksExcludes(c: Cluster, a: set<int>, b: set<int>)
    requires Blocks(c, a) && b <= c.Keys
    ensures a !! b ==> !Quorum(c, b)
  {
    if a !! b {
      assert |a + b| == |a| + |b|;
      Within(a + b, c.Keys);
      assert |c.Keys| == |c|;
    }
  }

  lemma Within(a: set<int>, b: set<int>)
    requires a <= b
    ensures |a| <= |b|
  {
    assert b == a + (b - a);
  }

  lemma ChosenIsChoosable(c: Cluster, h: History, t: nat, k: nat)
    requires Chosen(c, h, t, k)
    ensures Choosable(c, h, t, k)
  {
    Within(Holders(c, h, t, k), Supporters(c, h, t, k));
  }

  /** The choosable entries shrink as terms rise, unless a server accepted before its term rose. */
  lemma ChoosableShrinks(c: Cluster, h: History, c': Cluster, h': History, t: nat, k: nat)
    requires c'.Keys == c.Keys && Own(h, t, k)
    requires forall v | v in c ::
      c[v].term <= c'[v].term && (Ack(h', v, t) >= k ==> Ack(h, v, t) >= k || c[v].term <= t)
    requires Choosable(c', h', t, k)
    ensures Choosable(c, h, t, k)
  {
    Within(Supporters(c', h', t, k), Supporters(c, h, t, k));
  }

  lemma ChosenStays(c: Cluster, h: History, c': Cluster, h': History, t: nat, k: nat)
    requires c'.Keys == c.Keys && HistoryGrows(h, h') && Chosen(c, h, t, k)
    ensures Chosen(c', h', t, k) && Prefix(h', t, k) == Prefix(h, t, k)
  {
    Within(Holders(c, h, t, k), Holders(c', h', t, k));
  }

  lemma CertifiedStays(c: Cluster, h: History, c': Cluster, h': History, p: Log, b: nat, b': nat)
    requires c'.Keys == c.Keys && HistoryGrows(h, h') && b <= b' && Certified(c, h, p, b)
    ensures Certified(c', h', p, b')
  {
    var t: nat, k: nat :| t <= b && Chosen(c, h, t, k) && p <= Prefix(h, t, k);
    ChosenStays(c, h, c', h', t, k);
  }

  lemma CertifiedPrefix(c: Cluster, h: History, p: Log, b: nat, q: Log, d: nat)
    requires Certified(c, h, p, b) && q <= p && b <= d
    ensures Certified(c, h, q, d)
  {
    var t: nat, k: nat :| t <= b && Chosen(c, h, t, k) && p <= Prefix(h, t, k);
    assert q <= Prefix(h, t, k);
  }

  /** A certified prefix is in the log of every reign from its bound on. */
  lemma CertifiedInReign(c: Cluster, h: History, p: Log, bound: nat, u: nat)
    requires Complete(c, h) && Certified(c, h, p, bound) && bound <= u && u in h.reigns
    ensures p <= h.reigns[u].log
  {
    var t: nat, k: nat :| t <= bound && Chosen(c, h, t, k) && p <= Prefix(h, t, k);
    ChosenIsChoosable(c, h, t, k);
    assert LaterLeadersHave(h, t, k);
  }

  /** Certified prefixes are prefixes of one another. */
  lemma CertifiedAgree(c: Cluster, h: History, p: Log, b: nat, q: Log, d: nat)
    requires Complete(c, h) && Certified(c, h, p, b) && Certified(c, h, q, d)
    ensures p <= q || q <= p
  {
    var t: nat, k: nat :| t <= b && Chosen(c, h, t, k) && p <= Prefix(h, t, k);
    var u: nat, l: nat :| u <= d && Chosen(c, h, u, l) && q <= Prefix(h, u, l);
    var top := if t <= u then u else t;
    assert Certified(c, h, p, t) && Certified(c, h, q, u);
    CertifiedInReign(c, h, p, t, top);
    CertifiedInReign(c, h, q, u, top);
  }
}
