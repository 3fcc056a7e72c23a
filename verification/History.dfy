/** The history of a run that the safety proofs talk about: who led each term with which log, who
    campaigned and voted with which log, and how far each node acknowledged each leader. It only
    grows, and every message ever sent is justified by it alone. */
module History {
  import opened Types
  import opened Quorum
  import opened ReadQueue
  import opened RaftNode

  /** The leader of a term, its log as far as it has written it, and the voters that elected it. */
  datatype Lead = Lead(id: Id, log: seq<Entry>, quorum: set<Id>)

  /** A vote: for whom, and the voter's log when it voted. */
  datatype Vote = Vote(cand: Id, log: seq<Entry>)

  /** A read when the leader of a term first took it on: the leader's commit index, the nodes already
      past that term, and the commit index of every node at that moment. */
  datatype ReadRec = ReadRec(index: nat, moved: set<Id>, commits: map<Id, nat>)

  datatype Hist = Hist(
    epoch: map<Id, nat>,               // the current term of each node
    lead: map<nat, Lead>,              // per term
    runs: map<(nat, Id), seq<Entry>>,  // the log a candidate campaigned with
    votes: map<(nat, Id), Vote>,       // per term and voter
    claims: map<(nat, Id), nat>,       // the largest index acknowledged to the leader of a term
    cmt: map<nat, nat>,                // the largest index the leader of a term committed by counting
    asked: map<(Ctx, nat), ReadRec>,   // per context and term, the first time
    reused: set<nat>)                  // terms whose leader took on some context again

  function Epoch(h: Hist, v: Id): nat {
    if v in h.epoch then h.epoch[v] else 0
  }

  function Claim(h: Hist, t: nat, v: Id): nat {
    if (t, v) in h.claims then h.claims[(t, v)] else 0
  }

  // ----- facts about logs

  predicate Has(log: seq<Entry>, j: nat, t: nat) {
    0 < j <= |log| && log[j - 1].term == t
  }

  /** Everything up to an entry is what the leader of the entry's term had written. */
  ghost predicate EntryOk(h: Hist, log: seq<Entry>, i: nat)
    requires i < |log|
  {
    && log[i].index == i + 1
    && log[i].term in h.lead
    && log[..i + 1] <= h.lead[log[i].term].log
  }

  ghost predicate LogOk(h: Hist, log: seq<Entry>) {
    forall i :: 0 <= i < |log| ==> EntryOk(h, log, i)
  }

  ghost predicate TermsBelow(log: seq<Entry>, t: nat) {
    forall i :: 0 <= i < |log| ==> log[i].term < t
  }

  predicate AsUpToDate(mine: seq<Entry>, theirs: seq<Entry>) {
    IsUpToDate(theirs, |mine|, LastTerm(mine))
  }

  // ----- acknowledged, blocked and chosen entries

  /** The members of `s` have left term `t` without acknowledging index `j` to its leader. */
  ghost predicate BlockedBy(h: Hist, t: nat, j: nat, s: set<Id>) {
    forall u :: u in s ==> Epoch(h, u) > t && Claim(h, t, u) < j
  }

  ghost predicate Blocked(g: Group, h: Hist, t: nat, j: nat) {
    exists s :: IsQuorum(g.cfg, s) && BlockedBy(h, t, j, s)
  }

  ghost predicate ClaimedBy(h: Hist, t: nat, j: nat, s: set<Id>) {
    forall u :: u in s ==> Claim(h, t, u) >= j
  }

  /** The leader of `t` wrote entry `j` in its own term and a quorum acknowledged it. */
  ghost predicate Chosen(g: Group, h: Hist, t: nat, j: nat) {
    && t in h.lead && Has(h.lead[t].log, j, t)
    && exists s :: IsQuorum(g.cfg, s) && ClaimedBy(h, t, j, s)
  }

  ghost predicate Lacks(h: Hist, t2: nat, j: nat, t: nat) {
    t2 in h.lead && !Has(h.lead[t2].log, j, t)
  }

  /** A log that once held entry `j` of term `t` still holds it, unless the entry can no longer be
      chosen or some later leader below `lim` was elected without it. */
  ghost predicate Kept(g: Group, h: Hist, log: seq<Entry>, t: nat, j: nat, lim: nat) {
    || Has(log, j, t)
    || Blocked(g, h, t, j)
    || exists t2 :: t < t2 < lim && Lacks(h, t2, j, t)
  }

  ghost predicate Remembers(g: Group, h: Hist, v: Id, log: seq<Entry>, lim: nat) {
    forall t, j :: t in h.lead && t < lim && 0 < j <= Claim(h, t, v) && Has(h.lead[t].log, j, t)
      ==> Kept(g, h, log, t, j, lim)
  }

  // ----- the history invariant

  ghost predicate LeadOk(g: Group, h: Hist, t: nat)
    requires t in h.lead
  {
    var l := h.lead[t];
    && t > 0
    && IsQuorum(g.cfg, l.quorum)
    && (forall v :: v in l.quorum ==> (t, v) in h.votes && h.votes[(t, v)].cand == l.id)
    && (t, l.id) in h.runs
    && h.runs[(t, l.id)] <= l.log
    && (forall i :: |h.runs[(t, l.id)]| <= i < |l.log| ==> l.log[i].term == t)
    && LogOk(h, l.log)
  }

  ghost predicate RunOk(g: Group, h: Hist, t: nat, c: Id)
    requires (t, c) in h.runs
  {
    && 0 < t <= Epoch(h, c)
    && c in Voters(g.cfg)
    && LogOk(h, h.runs[(t, c)])
    && TermsBelow(h.runs[(t, c)], t)
  }

  ghost predicate VoteOk(g: Group, h: Hist, t: nat, v: Id)
    requires (t, v) in h.votes
  {
    var b := h.votes[(t, v)];
    && t <= Epoch(h, v)
    && LogOk(h, b.log)
    && (t, b.cand) in h.runs
    && AsUpToDate(h.runs[(t, b.cand)], b.log)
    && (t !in h.lead || v in h.lead[t].quorum ==> Remembers(g, h, v, b.log, t))
  }

  /** Claims are made to a leader in its term. What is claimed beyond the leader's log is blocked. */
  ghost predicate ClaimOk(g: Group, h: Hist, t: nat, v: Id)
    requires (t, v) in h.claims
  {
    && t in h.lead
    && t <= Epoch(h, v)
    && forall j :: |h.lead[t].log| < j <= h.claims[(t, v)] ==> Blocked(g, h, t, j)
  }

  ghost predicate CmtOk(g: Group, h: Hist, t: nat)
    requires t in h.cmt
  {
    Chosen(g, h, t, h.cmt[t])
  }

  /** Either no node had committed more than the leader, or a quorum had moved past its term. */
  ghost predicate AskOk(g: Group, h: Hist, c: Ctx, t: nat)
    requires (c, t) in h.asked
  {
    var r := h.asked[(c, t)];
    && (forall v :: v in r.moved ==> Epoch(h, v) > t)
    && CommittedAt(h, t, r.index)
    && (Covers(r) || exists s :: IsQuorum(g.cfg, s) && s <= r.moved)
  }

  /** One read was first taken on no later than another. */
  predicate NoLater(a: ReadRec, b: ReadRec) {
    a.index <= b.index && a.moved <= b.moved
  }

  /** The leader of a term took on its reads one after the other. */
  ghost predicate AsksOrdered(h: Hist) {
    forall c, d, t :: (c, t) in h.asked && (d, t) in h.asked ==>
      NoLater(h.asked[(c, t)], h.asked[(d, t)]) || NoLater(h.asked[(d, t)], h.asked[(c, t)])
  }

  predicate Covers(r: ReadRec) {
    forall v :: v in r.commits ==> r.commits[v] <= r.index
  }

  /** Index `j` is an entry of the leader of `t` from its own term that it committed by counting. */
  ghost predicate CommittedAt(h: Hist, t: nat, j: nat) {
    t in h.cmt && t in h.lead && j <= h.cmt[t] && Has(h.lead[t].log, j, t)
  }

  ghost predicate LeadsOk(g: Group, h: Hist) {
    forall t :: t in h.lead ==> LeadOk(g, h, t)
  }

  ghost predicate RunsOk(g: Group, h: Hist) {
    forall t, c :: (t, c) in h.runs ==> RunOk(g, h, t, c)
  }

  ghost predicate VotesOk(g: Group, h: Hist) {
    forall t, v :: (t, v) in h.votes ==> VoteOk(g, h, t, v)
  }

  ghost predicate ClaimsOk(g: Group, h: Hist) {
    forall t, v :: (t, v) in h.claims ==> ClaimOk(g, h, t, v)
  }

  ghost predicate CmtsOk(g: Group, h: Hist) {
    forall t :: t in h.cmt ==> CmtOk(g, h, t)
  }

  ghost predicate AsksOk(g: Group, h: Hist) {
    && (forall c, t :: (c, t) in h.asked ==> AskOk(g, h, c, t))
    && AsksOrdered(h)
  }

  ghost predicate HistOk(g: Group, h: Hist) {
    && LeadsOk(g, h)
    && RunsOk(g, h)
    && VotesOk(g, h)
    && ClaimsOk(g, h)
    && CmtsOk(g, h)
    && AsksOk(g, h)
  }

  // ----- log matching

  /** Log matching: two logs with the same term at an index are identical up to it. */
  lemma LogMatching(h: Hist, a: seq<Entry>, b: seq<Entry>, j: nat, t: nat)
    requires LogOk(h, a) && LogOk(h, b)
    requires Has(a, j, t) && Has(b, j, t)
    ensures a[..j] == b[..j]
  {
    assert EntryOk(h, a, j - 1);
    assert EntryOk(h, b, j - 1);
    var l := h.lead[t].log;
    assert a[..j] == l[..j] && b[..j] == l[..j];
  }

  lemma LeaderHolds(h: Hist, a: seq<Entry>, j: nat, t: nat)
    requires LogOk(h, a) && Has(a, j, t)
    ensures t in h.lead && a[..j] <= h.lead[t].log && Has(h.lead[t].log, j, t)
  {
    assert EntryOk(h, a, j - 1);
    assert a[..j][j - 1] == h.lead[t].log[j - 1];
  }

  /** Terms of a log never decrease. */
  lemma TermsGrow(g: Group, h: Hist, log: seq<Entry>, i: nat, j: nat)
    requires LeadsOk(g, h) && RunsOk(g, h) && LogOk(h, log)
    requires i <= j < |log|
    ensures log[i].term <= log[j].term
  {
    assert EntryOk(h, log, j);
    var t := log[j].term;
    assert LeadOk(g, h, t);
    var l := h.lead[t];
    assert log[..j + 1][i] == l.log[i];
    if i < |h.runs[(t, l.id)]| {
      assert RunOk(g, h, t, l.id);
      assert l.log[i] == h.runs[(t, l.id)][i];
    }
  }

  lemma LaterTermLater(g: Group, h: Hist, log: seq<Entry>, i: nat, j: nat)
    requires LeadsOk(g, h) && RunsOk(g, h) && LogOk(h, log)
    requires i < |log| && j < |log| && log[i].term < log[j].term
    ensures i < j
  {
    if j <= i {
      TermsGrow(g, h, log, j, i);
    }
  }

  lemma LeadTerms(g: Group, h: Hist, t: nat, i: nat)
    requires LeadsOk(g, h) && RunsOk(g, h)
    requires t in h.lead && i < |h.lead[t].log|
    ensures h.lead[t].log[i].term <= t
  {
    assert LeadOk(g, h, t);
    var l := h.lead[t];
    if i < |h.runs[(t, l.id)]| {
      assert RunOk(g, h, t, l.id);
      assert l.log[i] == h.runs[(t, l.id)][i];
    }
  }

  lemma LastTermReal(g: Group, h: Hist, log: seq<Entry>)
    requires LeadsOk(g, h) && LogOk(h, log) && |log| > 0
    ensures LastTerm(log) > 0
  {
    assert EntryOk(h, log, |log| - 1);
    assert LeadOk(g, h, LastTerm(log));
  }

  lemma LeadLogOk(g: Group, h: Hist, t: nat)
    requires LeadsOk(g, h) && t in h.lead
    ensures LogOk(h, h.lead[t].log) && t > 0
  {
    assert LeadOk(g, h, t);
  }

  // ----- leader completeness

  /** A candidate's log that is at least as up to date as a log with entry (j, t) holds it too,
      provided the leaders of the terms in between did. */
  lemma UpToDateKeeps(g: Group, h: Hist, run: seq<Entry>, log: seq<Entry>, j: nat, t: nat, lim: nat)
    requires LeadsOk(g, h) && RunsOk(g, h)
    requires LogOk(h, run) && LogOk(h, log) && TermsBelow(run, lim)
    requires AsUpToDate(run, log) && Has(log, j, t)
    requires forall t2 :: t < t2 < lim && t2 in h.lead ==> Has(h.lead[t2].log, j, t)
    ensures Has(run, j, t)
  {
    hide LogOk, LeadsOk, RunsOk;
    TermsGrow(g, h, log, j - 1, |log| - 1);
    var a, b := LastTerm(run), LastTerm(log);
    LastTermReal(g, h, log);
    LeaderHolds(h, run, |run|, a);
    LeaderHolds(h, log, |log|, b);
    var l := h.lead[a].log;
    assert run == l[..|run|] by { assert run[..|run|] == run; }
    if a == b {
      assert log == l[..|log|] by { assert log[..|log|] == log; }
      assert run[j - 1] == l[j - 1] == log[j - 1];
    } else {
      assert Has(l, j, t);
      LeadLogOk(g, h, a);
      LaterTermLater(g, h, l, j - 1, |run| - 1);
      assert run[j - 1] == l[j - 1];
    }
  }

  /** For an entry of the leader of `t`, written or still to be written: the leader of any later
      term holds it, or no quorum will ever acknowledge it. */
  lemma {:induction false} LaterLeaderHasOrBlocked(g: Group, h: Hist, t: nat, j: nat, t2: nat)
    requires HistOk(g, h)
    requires t in h.lead && t2 in h.lead && t < t2
    requires Has(h.lead[t].log, j, t) || j > |h.lead[t].log|
    ensures Has(h.lead[t2].log, j, t) || Blocked(g, h, t, j)
    decreases t2
  {
    if !Blocked(g, h, t, j) {
      forall t3 | t < t3 < t2 && t3 in h.lead
        ensures Has(h.lead[t3].log, j, t)
      {
        LaterLeaderHasOrBlocked(g, h, t, j, t3);
      }
      var l := h.lead[t2];
      assert LeadOk(g, h, t2);
      if u :| u in l.quorum && Claim(h, t, u) >= j {
        VoterKept(g, h, t, j, t2, u);
      } else {
        NobodyClaimed(g, h, t, j, t2);
      }
    }
  }

  lemma VoterKept(g: Group, h: Hist, t: nat, j: nat, t2: nat, u: Id)
    requires HistOk(g, h)
    requires t in h.lead && t2 in h.lead && t < t2
    requires Has(h.lead[t].log, j, t) || j > |h.lead[t].log|
    requires !Blocked(g, h, t, j)
    requires forall t3 :: t < t3 < t2 && t3 in h.lead ==> Has(h.lead[t3].log, j, t)
    requires u in h.lead[t2].quorum && Claim(h, t, u) >= j
    ensures Has(h.lead[t2].log, j, t)
  {
    var l := h.lead[t2];
    assert LeadOk(g, h, t2);
    assert (t, u) in h.claims;
    assert ClaimOk(g, h, t, u);
    assert Has(h.lead[t].log, j, t);
    assert VoteOk(g, h, t2, u);
    var b := h.votes[(t2, u)];
    assert Remembers(g, h, u, b.log, t2);
    assert Kept(g, h, b.log, t, j, t2);
    assert Has(b.log, j, t);
    var run := h.runs[(t2, l.id)];
    assert RunOk(g, h, t2, l.id);
    UpToDateKeeps(g, h, run, b.log, j, t, t2);
    assert run[j - 1] == l.log[j - 1];
  }

  lemma NobodyClaimed(g: Group, h: Hist, t: nat, j: nat, t2: nat)
    requires VotesOk(g, h)
    requires t2 in h.lead && t < t2 && LeadOk(g, h, t2)
    requires forall u :: u in h.lead[t2].quorum ==> Claim(h, t, u) < j
    ensures Blocked(g, h, t, j)
  {
    var s := h.lead[t2].quorum;
    forall u | u in s
      ensures Epoch(h, u) > t
    {
      assert VoteOk(g, h, t2, u);
    }
    assert BlockedBy(h, t, j, s);
  }

  lemma ChosenNotBlocked(g: Group, h: Hist, t: nat, j: nat)
    requires GroupOk(g) && Chosen(g, h, t, j)
    ensures !Blocked(g, h, t, j)
  {
    if Blocked(g, h, t, j) {
      var a :| IsQuorum(g.cfg, a) && BlockedBy(h, t, j, a);
      var b :| IsQuorum(g.cfg, b) && ClaimedBy(h, t, j, b);
      var u := QuorumsMeet(g.cfg, a, b);
      assert false;
    }
  }

  /** Leader completeness: every leader of a later term holds every chosen entry. */
  lemma LeaderCompleteness(g: Group, h: Hist, t: nat, j: nat, t2: nat)
    requires GroupOk(g) && HistOk(g, h)
    requires Chosen(g, h, t, j)
    requires t2 in h.lead && t < t2
    ensures Has(h.lead[t2].log, j, t)
    ensures h.lead[t].log[..j] <= h.lead[t2].log
  {
    ChosenNotBlocked(g, h, t, j);
    LaterLeaderHasOrBlocked(g, h, t, j, t2);
    assert LeadOk(g, h, t) && LeadOk(g, h, t2);
    LogMatching(h, h.lead[t].log, h.lead[t2].log, j, t);
  }

  // ----- committed prefixes

  /** The first `c` entries of a log were committed by some leader's count; without pre-votes the
      leader's term is at most `lim`. */
  ghost predicate Certified(g: Group, h: Hist, log: seq<Entry>, c: nat, lim: nat) {
    c <= |log| && (c == 0 || exists t :: CertifiedBy(g, h, log, c, lim, t))
  }

  ghost predicate CertifiedBy(g: Group, h: Hist, log: seq<Entry>, c: nat, lim: nat, t: nat) {
    && c <= |log|
    && t in h.cmt && t in h.lead
    && (g.preVote || t <= lim)
    && c <= h.cmt[t]
    && log[..c] <= h.lead[t].log
  }

  /** What the leader of `t` committed, every leader of `t` or later holds. */
  lemma CommittedStays(g: Group, h: Hist, t: nat, t2: nat, c: nat)
    requires GroupOk(g) && HistOk(g, h)
    requires t in h.cmt && t in h.lead && t2 in h.lead && t <= t2
    requires c <= h.cmt[t]
    ensures c <= |h.lead[t].log| && c <= |h.lead[t2].log|
    ensures h.lead[t].log[..c] == h.lead[t2].log[..c]
  {
    assert CmtOk(g, h, t);
    if t < t2 {
      LeaderCompleteness(g, h, t, h.cmt[t], t2);
      TakeLess(h.lead[t].log, h.lead[t2].log, h.cmt[t], c);
    }
  }

  /** Two certified prefixes agree wherever both reach. */
  lemma CertifiedAgree(g: Group, h: Hist, a: seq<Entry>, ca: nat, la: nat, b: seq<Entry>, cb: nat, lb: nat, i: nat)
    requires GroupOk(g) && HistOk(g, h)
    requires Certified(g, h, a, ca, la) && Certified(g, h, b, cb, lb)
    requires i < ca && i < cb
    ensures a[i] == b[i]
  {
    hide HistOk;
    var t :| CertifiedBy(g, h, a, ca, la, t);
    var t2 :| CertifiedBy(g, h, b, cb, lb, t2);
    var c := i + 1;
    assert a[i] == a[..ca][i] == h.lead[t].log[i] == h.lead[t].log[..c][i];
    assert b[i] == b[..cb][i] == h.lead[t2].log[i] == h.lead[t2].log[..c][i];
    if t <= t2 {
      CommittedStays(g, h, t, t2, c);
    } else {
      CommittedStays(g, h, t2, t, c);
    }
  }

  /** A leader holds every certified prefix of its own or an earlier term. */
  lemma LeaderHoldsCertified(g: Group, h: Hist, log: seq<Entry>, c: nat, lim: nat, t: nat, t2: nat)
    requires GroupOk(g) && HistOk(g, h)
    requires CertifiedBy(g, h, log, c, lim, t)
    requires t <= t2 && t2 in h.lead
    ensures log[..c] <= h.lead[t2].log
  {
    CommittedStays(g, h, t, t2, c);
    assert h.lead[t].log[..c] == log[..c];
  }
}
