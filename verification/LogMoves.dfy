/** Moves that elect a leader, change a log, acknowledge entries or commit them. */
module LogMoves {
  import opened Types
  import opened Quorum
  import opened ReadQueue
  import opened RaftNode
  import opened History
  import opened Growth
  import opened Invariant
  import opened Moves

  // ----- winning an election

  lemma NobodyElseLeads(g: Group, h: Hist, n: Node, q: set<Id>)
    requires GroupOk(g) && LeadsOk(g, h) && CandidateOk(g, h, n) && n.role == Candidate
    requires IsQuorum(g.cfg, q) && forall v :: v in q ==> v in n.votes && n.votes[v]
    ensures n.term !in h.lead
  {
    if n.term in h.lead {
      assert LeadOk(g, h, n.term);
      var u := QuorumsMeet(g.cfg, q, h.lead[n.term].quorum);
    }
  }

  function Elected(n: Node): Node {
    n.(role := Leader, leaderId := n.id, votes := map[], waiting := NoReads, matched := map p | p in n.matched :: 0)
  }

  lemma ElectHist(g: Group, h: Hist, n: Node, q: set<Id>) returns (h': Hist)
    requires HistOk(g, h) && n.role == Candidate && CandidateOk(g, h, n)
    requires n.term !in h.lead && IsQuorum(g.cfg, q)
    requires forall v :: v in q ==> Supports(h, n.term, v, n.id)
    ensures h' == h.(lead := h.lead[n.term := Lead(n.id, n.log, q)])
    ensures HistOk(g, h') && Move(n.id, h, h')
  {
    h' := h.(lead := h.lead[n.term := Lead(n.id, n.log, q)]);
    assert RunOk(g, h, n.term, n.id);
    assert n.term in h.cmt ==> CmtOk(g, h, n.term);
    ElectGrown(g, h, h', n, q);
    ClaimsSame(g, h, h');
    hide Grows, Move;
    HistOkGrows(g, h, h');
  }

  lemma ElectGrown(g: Group, h: Hist, h': Hist, n: Node, q: set<Id>)
    requires n.role == Candidate && CandidateOk(g, h, n) && RunOk(g, h, n.term, n.id)
    requires n.term !in h.lead && n.term !in h.cmt && IsQuorum(g.cfg, q)
    requires forall v :: v in q ==> Supports(h, n.term, v, n.id)
    requires h' == h.(lead := h.lead[n.term := Lead(n.id, n.log, q)])
    ensures Move(n.id, h, h') && LeadOk(g, h', n.term)
  {
    assert LeadGrows(h, h') by {
      forall t | t in h.lead ensures LeadGrowsAt(h, h', t) {}
    }
    LogOkGrows(h, h', n.log);
  }

  lemma ElectMove(g: Group, h: Hist, n: Node, q: set<Id>) returns (h': Hist)
    requires Ready(g, h, n) && n.role == Candidate
    requires IsQuorum(g.cfg, q) && forall v :: v in q ==> v in n.votes && n.votes[v]
    ensures Moved(g, h, n, h', Elected(n))
  {
    NobodyElseLeads(g, h, n, q);
    h' := ElectHist(g, h, n, q);
    assert RunOk(g, h, n.term, n.id);
    assert n.term in h.cmt ==> CmtOk(g, h, n.term);
    ElectNode(g, h, h', n, q);
  }

  lemma ElectNode(g: Group, h: Hist, h': Hist, n: Node, q: set<Id>)
    requires NodeOk(g, h, n) && ClaimsOk(g, h) && Grows(h, h') && n.role == Candidate && n.term > 0
    requires h' == h.(lead := h.lead[n.term := Lead(n.id, n.log, q)])
    requires n.term !in h.cmt && n.term !in h.lead && TermsBelow(n.log, n.term)
    ensures NodeOk(g, h', Elected(n))
  {
    hide HistOk, LogOk, Certified, Remembers, Grows, AnswersOk;
    ElectShape(g, h, h', n, q);
    ElectKeeps(g, h, h', n, q);
  }

  lemma ElectShape(g: Group, h: Hist, h': Hist, n: Node, q: set<Id>)
    requires NodeOk(g, h, n) && ClaimsOk(g, h) && Grows(h, h') && n.role == Candidate && n.term > 0
    requires h' == h.(lead := h.lead[n.term := Lead(n.id, n.log, q)])
    requires n.term !in h.cmt && n.term !in h.lead && TermsBelow(n.log, n.term)
    ensures ShapeOk(g, h', Elected(n)) && LeaderOk(g, h', Elected(n)) && ClaimHeld(h', Elected(n))
  {
    hide EntryOk, Remembers, Certified;
    LogOkGrows(h, h', n.log);
    if Claim(h, n.term, n.id) > 0 {
      NoLeadNoClaim(g, h, n.term, n.id);
    }
  }

  lemma ElectKeeps(g: Group, h: Hist, h': Hist, n: Node, q: set<Id>)
    requires NodeOk(g, h, n) && ClaimsOk(g, h) && Grows(h, h')
    requires h' == h.(lead := h.lead[n.term := Lead(n.id, n.log, q)])
    ensures Certified(g, h', n.log, n.committed, n.term) && Remembers(g, h', n.id, n.log, n.term + 1)
    ensures AnswersOk(h', Elected(n))
  {
    AnswersGrow(h, h', n);
    AnswersSame(h', n, Elected(n));
    hide LogOk, ShapeOk, BallotOk, CandidateOk, LeaderOk, ReadsFit, AnswersOk, ClaimHeld;
    CertifiedGrows(g, h, h', n.log, n.committed, n.term, n.term);
    RemembersGrows(g, h, h', n.id, n.log, n.term + 1);
  }

  // ----- acknowledging

  /** Node `n` may acknowledge index `k` to the leader of its term. */
  ghost predicate MayClaim(g: Group, h: Hist, n: Node, k: nat) {
    && n.term in h.lead
    && (k <= n.committed || (k <= |n.log| && n.log[..k] <= h.lead[n.term].log))
    && (forall j :: |h.lead[n.term].log| < j <= k ==> Blocked(g, h, n.term, j))
    && (forall j :: 0 < j <= k && Has(h.lead[n.term].log, j, n.term) ==> Kept(g, h, n.log, n.term, j, n.term + 1))
  }

  lemma ClaimHist(g: Group, h: Hist, id: Id, t: nat, k: nat) returns (h': Hist)
    requires HistOk(g, h) && t in h.lead && Epoch(h, id) == t
    requires k > Claim(h, t, id)
    requires forall j :: |h.lead[t].log| < j <= k ==> Blocked(g, h, t, j)
    ensures h' == h.(claims := h.claims[(t, id) := k])
    ensures HistOk(g, h') && Move(id, h, h')
  {
    h' := h.(claims := h.claims[(t, id) := k]);
    ClaimGrown(h, h', id, t, k);
    forall t1, v | (t1, v) in h'.claims && !((t1, v) in h.claims && h.claims[(t1, v)] == h'.claims[(t1, v)] > 0)
      ensures ClaimOk(g, h', t1, v)
    {
      if (t1, v) == (t, id) {
        forall j | |h'.lead[t].log| < j <= k
          ensures Blocked(g, h', t, j)
        {
          BlockedGrows(g, h, h', t, j);
        }
      } else {
        assert ClaimOk(g, h, t1, v);
      }
    }
    HistOkGrows(g, h, h');
  }

  lemma ClaimGrown(h: Hist, h': Hist, id: Id, t: nat, k: nat)
    requires Epoch(h, id) == t && k > Claim(h, t, id) && h' == h.(claims := h.claims[(t, id) := k])
    ensures Move(id, h, h')
  {
    assert LeadGrows(h, h') by {
      forall t | t in h.lead ensures LeadGrowsAt(h, h', t) {}
    }
  }

  lemma ClaimMove(g: Group, h: Hist, n: Node, k: nat) returns (h': Hist)
    requires Ready(g, h, n) && MayClaim(g, h, n, k)
    ensures Moved(g, h, n, h', n)
    ensures Claim(h', n.term, n.id) >= k
  {
    if k <= Claim(h, n.term, n.id) {
      h' := h;
      MoveRefl(n.id, h);
    } else {
      h' := ClaimHist(g, h, n.id, n.term, k);
      ClaimRemembers(g, h, h', n, k);
      ClaimNode(g, h, h', n, k);
    }
  }

  lemma ClaimRemembers(g: Group, h: Hist, h': Hist, n: Node, k: nat)
    requires NodeOk(g, h, n) && MayClaim(g, h, n, k) && Grows(h, h')
    requires k > Claim(h, n.term, n.id)
    requires h' == h.(claims := h.claims[(n.term, n.id) := k])
    ensures Remembers(g, h', n.id, n.log, n.term + 1)
  {
    forall t, j | t in h'.lead && t < n.term + 1 && 0 < j <= Claim(h', t, n.id) && Has(h'.lead[t].log, j, t)
      ensures Kept(g, h', n.log, t, j, n.term + 1)
    {
      assert Kept(g, h, n.log, t, j, n.term + 1);
      KeptGrows(g, h, h', n.log, t, j, n.term + 1);
    }
  }

  lemma ClaimNode(g: Group, h: Hist, h': Hist, n: Node, k: nat)
    requires NodeOk(g, h, n) && MayClaim(g, h, n, k) && Grows(h, h')
    requires k > Claim(h, n.term, n.id)
    requires h' == h.(claims := h.claims[(n.term, n.id) := k])
    requires Remembers(g, h', n.id, n.log, n.term + 1)
    ensures NodeOk(g, h', n)
  {
    hide ReadsFit, AnswersOk, EntryOk;
    ReadsKept(g, h, h', n, n);
    LogOkGrows(h, h', n.log);
    CertifiedGrows(g, h, h', n.log, n.committed, n.term, n.term);
    assert LeaderOk(g, h', n) by {
      forall v | v in n.matched
        ensures Claim(h, n.term, v) <= Claim(h', n.term, v)
      {
      }
    }
  }

  /** Entries that match the leader's log may be acknowledged. */
  lemma MatchingMayClaim(g: Group, h: Hist, n: Node, k: nat)
    requires n.term in h.lead && k <= |n.log| && n.log[..k] <= h.lead[n.term].log
    ensures MayClaim(g, h, n, k)
  {
    var l := h.lead[n.term].log;
    forall j | 0 < j <= k && Has(l, j, n.term)
      ensures Kept(g, h, n.log, n.term, j, n.term + 1)
    {
      assert n.log[..k][j - 1] == l[j - 1];
    }
  }

  /** A node may acknowledge its commit index to the leader of its term. If a later leader committed
      something else there, the leader's own entries at those indexes are blocked. */
  lemma CommittedMayClaim(g: Group, h: Hist, n: Node)
    requires GroupOk(g) && HistOk(g, h) && n.term in h.lead && LogOk(h, n.log)
    requires Certified(g, h, n.log, n.committed, n.term)
    ensures MayClaim(g, h, n, n.committed)
  {
    if n.committed == 0 {
      MatchingMayClaim(g, h, n, 0);
    } else {
      var t :| CertifiedBy(g, h, n.log, n.committed, n.term, t);
      CertifiedMayClaim(g, h, n, t);
    }
  }

  lemma CertifiedMayClaim(g: Group, h: Hist, n: Node, t: nat)
    requires GroupOk(g) && HistOk(g, h) && n.term in h.lead && LogOk(h, n.log)
    requires CertifiedBy(g, h, n.log, n.committed, n.term, t)
    ensures MayClaim(g, h, n, n.committed)
  {
    if t <= n.term {
      LeaderHoldsCertified(g, h, n.log, n.committed, n.term, t, n.term);
      MatchingMayClaim(g, h, n, n.committed);
    } else {
      OvertakenMayClaim(g, h, n, t);
    }
  }

  lemma OvertakenMayClaim(g: Group, h: Hist, n: Node, t: nat)
    requires HistOk(g, h) && n.term in h.lead && LogOk(h, n.log)
    requires n.term < t && CertifiedBy(g, h, n.log, n.committed, n.term, t)
    ensures MayClaim(g, h, n, n.committed)
  {
    forall j | 0 < j <= n.committed
      ensures |h.lead[n.term].log| < j ==> Blocked(g, h, n.term, j)
      ensures Has(h.lead[n.term].log, j, n.term) ==> Kept(g, h, n.log, n.term, j, n.term + 1)
    {
      OvertakenKept(g, h, n, t, j);
    }
  }

  lemma OvertakenKept(g: Group, h: Hist, n: Node, t: nat, j: nat)
    requires HistOk(g, h) && n.term in h.lead && LogOk(h, n.log)
    requires n.term < t && CertifiedBy(g, h, n.log, n.committed, n.term, t)
    requires 0 < j <= n.committed
    ensures |h.lead[n.term].log| < j ==> Blocked(g, h, n.term, j)
    ensures Has(h.lead[n.term].log, j, n.term) ==> Kept(g, h, n.log, n.term, j, n.term + 1)
  {
    var l, l2 := h.lead[n.term].log, h.lead[t].log;
    assert n.log[j - 1] == n.log[..n.committed][j - 1] == l2[j - 1];
    if Has(n.log, j, n.term) {
      LeaderHolds(h, n.log, j, n.term);
    } else if j > |l| || Has(l, j, n.term) {
      LaterLeaderHasOrBlocked(g, h, n.term, j, t);
    }
  }

  // ----- appending

  ghost predicate OwnEntries(es: seq<Entry>, term: nat, after: nat) {
    forall i :: 0 <= i < |es| ==> es[i].term == term && es[i].index == after + i + 1
  }

  lemma LogOkExtend(h: Hist, log: seq<Entry>, es: seq<Entry>, t: nat)
    requires t in h.lead && h.lead[t].log == log + es
    requires LogOk(h, log) && OwnEntries(es, t, |log|)
    ensures LogOk(h, log + es)
  {
    forall i | 0 <= i < |log + es|
      ensures EntryOk(h, log + es, i)
    {
      if i < |log| {
        assert EntryOk(h, log, i);
        assert (log + es)[..i + 1] == log[..i + 1];
      } else {
        assert (log + es)[i] == es[i - |log|];
      }
    }
  }

  lemma AppendHist(g: Group, h: Hist, t: nat, id: Id, es: seq<Entry>) returns (h': Hist)
    requires HistOk(g, h) && t in h.lead && h.lead[t].id == id
    requires OwnEntries(es, t, |h.lead[t].log|)
    ensures h' == h.(lead := h.lead[t := h.lead[t].(log := h.lead[t].log + es)])
    ensures HistOk(g, h') && Move(id, h, h')
  {
    h' := h.(lead := h.lead[t := h.lead[t].(log := h.lead[t].log + es)]);
    AppendGrown(h, h', t, id, es);
    ClaimsSame(g, h, h');
    hide Grows, Move;
    HistOkGrows(g, h, h');
  }

  lemma AppendGrown(h: Hist, h': Hist, t: nat, id: Id, es: seq<Entry>)
    requires t in h.lead && h.lead[t].id == id && OwnEntries(es, t, |h.lead[t].log|)
    requires h' == h.(lead := h.lead[t := h.lead[t].(log := h.lead[t].log + es)])
    ensures Move(id, h, h')
  {
    var l := h.lead[t].log;
    forall t1 | t1 in h.lead ensures LeadGrowsAt(h, h', t1) {
      if t1 == t {
        forall i | |l| <= i < |l + es| ensures (l + es)[i] == es[i - |l|] {}
      }
    }
  }

  lemma LeaderAppendMove(g: Group, h: Hist, n: Node, es: seq<Entry>) returns (h': Hist)
    requires Ready(g, h, n) && n.role == Leader && OwnEntries(es, n.term, |n.log|)
    ensures Moved(g, h, n, h', n.(log := n.log + es))
  {
    h' := AppendHist(g, h, n.term, n.id, es);
    LeaderAppendNode(g, h, h', n, es);
  }

  lemma LeaderAppendNode(g: Group, h: Hist, h': Hist, n: Node, es: seq<Entry>)
    requires NodeOk(g, h, n) && ClaimsOk(g, h) && Grows(h, h') && n.role == Leader && OwnEntries(es, n.term, |n.log|)
    requires h' == h.(lead := h.lead[n.term := h.lead[n.term].(log := n.log + es)])
    ensures NodeOk(g, h', n.(log := n.log + es))
  {
    LeaderAppendShape(g, h, h', n, es);
    LeaderAppendKeeps(g, h, h', n, es);
    hide LogOk, Certified, Remembers, Grows, OwnEntries, AnswersOk, ReadsFit;
  }

  lemma LeaderAppendShape(g: Group, h: Hist, h': Hist, n: Node, es: seq<Entry>)
    requires NodeOk(g, h, n) && Grows(h, h') && n.role == Leader && OwnEntries(es, n.term, |n.log|)
    requires h' == h.(lead := h.lead[n.term := h.lead[n.term].(log := n.log + es)])
    ensures LogOk(h', n.log + es) && TermsBelow(n.log + es, n.term + 1)
  {
    hide EntryOk, Remembers, Certified;
    LogOkGrows(h, h', n.log);
    LogOkExtend(h', n.log, es, n.term);
    ExtendTerms(n.log, es, n.term);
  }

  lemma LeaderAppendKeeps(g: Group, h: Hist, h': Hist, n: Node, es: seq<Entry>)
    requires NodeOk(g, h, n) && ClaimsOk(g, h) && Grows(h, h') && h'.claims == h.claims
    ensures Certified(g, h', n.log + es, n.committed, n.term) && Remembers(g, h', n.id, n.log + es, n.term + 1)
    ensures ReadsFit(g, h', n.(log := n.log + es)) && AnswersOk(h', n.(log := n.log + es))
  {
    hide LogOk, ShapeOk, BallotOk, CandidateOk, LeaderOk, ReadsFit, AnswersOk, ClaimHeld;
    ReadsKept(g, h, h', n, n.(log := n.log + es));
    CertifiedPrefixGrows(g, h, h', n.log, n.log + es, n.committed, n.term);
    RemembersGrows(g, h, h', n.id, n.log, n.term + 1);
    RemembersLonger(g, h', n.id, n.log, n.log + es, n.term + 1);
  }

  lemma ExtendTerms(log: seq<Entry>, es: seq<Entry>, t: nat)
    requires TermsBelow(log, t + 1) && OwnEntries(es, t, |log|)
    ensures TermsBelow(log + es, t + 1)
  {
  }

  lemma RemembersLonger(g: Group, h: Hist, v: Id, a: seq<Entry>, b: seq<Entry>, lim: nat)
    requires Remembers(g, h, v, a, lim) && a <= b
    ensures Remembers(g, h, v, b, lim)
  {
    forall t, j | t in h.lead && t < lim && 0 < j <= Claim(h, t, v) && Has(h.lead[t].log, j, t)
      ensures Kept(g, h, b, t, j, lim)
    {
      assert Kept(g, h, a, t, j, lim);
    }
  }

  // ----- a follower takes over entries of its leader

  /** `log` replaces the follower's log from the first conflict `ci` on by entries of the leader. */
  ghost predicate TakesOver(h: Hist, n: Node, ci: nat, log: seq<Entry>) {
    && n.term in h.lead
    && n.committed < ci <= |n.log| + 1
    && ci <= |log|
    && log <= h.lead[n.term].log
    && log[..ci - 1] == n.log[..ci - 1]
    && (ci <= |n.log| ==> n.log[ci - 1].term != log[ci - 1].term)
  }

  lemma LogOkPrefix(h: Hist, a: seq<Entry>, b: seq<Entry>)
    requires LogOk(h, b) && a <= b
    ensures LogOk(h, a)
  {
    forall i | 0 <= i < |a|
      ensures EntryOk(h, a, i)
    {
      assert EntryOk(h, b, i);
      assert a[..i + 1] == b[..i + 1];
    }
  }

  lemma ConflictIsAbove(h: Hist, n: Node, ci: nat, log: seq<Entry>, k: nat)
    requires TakesOver(h, n, ci, log)
    requires k <= |n.log| && n.log[..k] <= h.lead[n.term].log
    ensures k < ci
  {
  }

  lemma TakeOverKept(g: Group, h: Hist, n: Node, ci: nat, log: seq<Entry>, t: nat, j: nat)
    requires TakesOver(h, n, ci, log) && LogOk(h, n.log) && LogOk(h, h.lead[n.term].log)
    requires t in h.lead && t <= n.term && Kept(g, h, n.log, t, j, n.term + 1)
    ensures Kept(g, h, log, t, j, n.term + 1)
  {
    if Has(n.log, j, t) {
      var l := h.lead[n.term].log;
      if Has(l, j, t) {
        LogMatching(h, n.log, l, j, t);
        ConflictIsAbove(h, n, ci, log, j);
        assert log[j - 1] == log[..ci - 1][j - 1] == n.log[j - 1];
      } else {
        if t == n.term {
          LeaderHolds(h, n.log, j, t);
        }
        assert Lacks(h, n.term, j, t);
      }
    }
  }

  lemma TakeOverClaimHeld(h: Hist, n: Node, ci: nat, log: seq<Entry>)
    requires TakesOver(h, n, ci, log) && ClaimHeld(h, n)
    ensures ClaimHeld(h, n.(log := log))
  {
    var k := Claim(h, n.term, n.id);
    if k > n.committed {
      ConflictIsAbove(h, n, ci, log, k);
      TakeLess(n.log, log, ci - 1, k);
      assert log[..k] <= h.lead[n.term].log;
    }
  }

  lemma TakeOverRemembers(g: Group, h: Hist, n: Node, ci: nat, log: seq<Entry>)
    requires TakesOver(h, n, ci, log) && LogOk(h, n.log) && LogOk(h, h.lead[n.term].log)
    requires Remembers(g, h, n.id, n.log, n.term + 1)
    ensures Remembers(g, h, n.id, log, n.term + 1)
  {
    forall t, j | t in h.lead && t < n.term + 1 && 0 < j <= Claim(h, t, n.id) && Has(h.lead[t].log, j, t)
      ensures Kept(g, h, log, t, j, n.term + 1)
    {
      TakeOverKept(g, h, n, ci, log, t, j);
    }
  }

  lemma TakeOverCertified(g: Group, h: Hist, n: Node, ci: nat, log: seq<Entry>)
    requires TakesOver(h, n, ci, log) && Certified(g, h, n.log, n.committed, n.term)
    ensures Certified(g, h, log, n.committed, n.term)
  {
    if n.committed > 0 {
      var t :| CertifiedBy(g, h, n.log, n.committed, n.term, t);
      TakeLess(n.log, log, ci - 1, n.committed);
      assert CertifiedBy(g, h, log, n.committed, n.term, t);
    }
  }

  lemma TakeOverTerms(g: Group, h: Hist, t: nat, log: seq<Entry>)
    requires LeadsOk(g, h) && RunsOk(g, h) && t in h.lead && log <= h.lead[t].log
    ensures TermsBelow(log, t + 1)
  {
    forall i | 0 <= i < |log|
      ensures log[i].term < t + 1
    {
      LeadTerms(g, h, t, i);
    }
  }

  lemma TakeOverNode(g: Group, h: Hist, n: Node, ci: nat, log: seq<Entry>, persisted: nat)
    requires NodeOk(g, h, n) && n.role == Follower
    requires TakesOver(h, n, ci, log) && persisted <= |log|
    requires LogOk(h, h.lead[n.term].log) && TermsBelow(log, n.term + 1)
    ensures NodeOk(g, h, n.(log := log, persisted := persisted))
  {
    LogOkPrefix(h, log, h.lead[n.term].log);
    TakeOverRemembers(g, h, n, ci, log);
    TakeOverClaimHeld(h, n, ci, log);
    TakeOverCertified(g, h, n, ci, log);
  }

  lemma TakeOverMove(g: Group, h: Hist, n: Node, ci: nat, log: seq<Entry>, persisted: nat)
    requires Ready(g, h, n) && n.role == Follower
    requires TakesOver(h, n, ci, log) && persisted <= |log|
    ensures Moved(g, h, n, h, n.(log := log, persisted := persisted))
  {
    assert LeadOk(g, h, n.term);
    TakeOverTerms(g, h, n.term, log);
    TakeOverNode(g, h, n, ci, log, persisted);
    MoveRefl(n.id, h);
  }

  // ----- committing

  lemma CommitNode(g: Group, h: Hist, n: Node, c: nat)
    requires NodeOk(g, h, n) && n.role != Leader
    requires c >= n.committed && Certified(g, h, n.log, c, n.term)
    ensures NodeOk(g, h, n.(committed := c))
  {
  }

  /** A node that does not lead may advance to a commit index certified for its log. */
  lemma CommitMove(g: Group, h: Hist, n: Node, c: nat)
    requires Ready(g, h, n) && n.role != Leader
    requires c >= n.committed && Certified(g, h, n.log, c, n.term)
    ensures Moved(g, h, n, h, n.(committed := c))
  {
    hide HistOk, NodeOk;
    CommitNode(g, h, n, c);
    MoveRefl(n.id, h);
  }

  lemma QuorumClaims(g: Group, h: Hist, n: Node, c: nat)
    requires LeaderOk(g, h, n) && n.role == Leader && c > 0
    requires Committable(g, n.matched, c) && Has(n.log, c, n.term)
    ensures Chosen(g, h, n.term, c)
  {
    assert ClaimedBy(h, n.term, c, Acked(n.matched, c));
  }

  lemma CmtHist(g: Group, h: Hist, t: nat, id: Id, c: nat) returns (h': Hist)
    requires HistOk(g, h) && t in h.lead && h.lead[t].id == id
    requires Chosen(g, h, t, c) && (t in h.cmt ==> h.cmt[t] <= c)
    ensures h' == h.(cmt := h.cmt[t := c])
    ensures HistOk(g, h') && Move(id, h, h')
  {
    h' := h.(cmt := h.cmt[t := c]);
    CmtGrown(h, h', t, id, c);
    ChosenGrows(g, h, h', t, c);
    hide HistOk, Move, Grows, Chosen;
    CmtHistOk(g, h, h', t, c);
  }

  lemma CmtGrown(h: Hist, h': Hist, t: nat, id: Id, c: nat)
    requires t in h.lead && h.lead[t].id == id && (t in h.cmt ==> h.cmt[t] <= c)
    requires h' == h.(cmt := h.cmt[t := c])
    ensures Move(id, h, h') && Grows(h, h')
  {
    assert LeadGrows(h, h') by {
      forall t1 | t1 in h.lead ensures LeadGrowsAt(h, h', t1) {}
    }
  }

  lemma CmtHistOk(g: Group, h: Hist, h': Hist, t: nat, c: nat)
    requires HistOk(g, h) && Grows(h, h') && h' == h.(cmt := h.cmt[t := c])
    requires Chosen(g, h', t, c)
    ensures HistOk(g, h')
  {
    hide Chosen;
    ClaimsSame(g, h, h');
    assert CmtOk(g, h', t);
    HistOkGrows(g, h, h');
  }

  /** A leader commits an entry of its own term that a quorum acknowledged. */
  lemma LeaderCommitMove(g: Group, h: Hist, n: Node, c: nat) returns (h': Hist)
    requires Ready(g, h, n) && n.role == Leader
    requires c > n.committed && Committable(g, n.matched, c) && Has(n.log, c, n.term)
    ensures Moved(g, h, n, h', n.(committed := c))
  {
    QuorumClaims(g, h, n, c);
    h' := CmtHist(g, h, n.term, n.id, c);
    LeaderCommitNode(g, h, h', n, c);
  }

  lemma LeaderCommitNode(g: Group, h: Hist, h': Hist, n: Node, c: nat)
    requires NodeOk(g, h, n) && ClaimsOk(g, h) && Grows(h, h') && n.role == Leader
    requires c > n.committed && Has(n.log, c, n.term)
    requires h' == h.(cmt := h.cmt[n.term := c])
    ensures NodeOk(g, h', n.(committed := c))
  {
    hide EntryOk, ReadsFit, AnswersOk;
    LogOkGrows(h, h', n.log);
    RemembersGrows(g, h, h', n.id, n.log, n.term + 1);
    ReadsKept(g, h, h', n, n.(committed := c));
    assert CertifiedBy(g, h', n.log, c, n.term, n.term);
  }

  lemma AcknowledgeNode(g: Group, h: Hist, n: Node, from: Id, index: nat)
    requires NodeOk(g, h, n) && (n.role == Leader ==> index <= Claim(h, n.term, from))
    ensures NodeOk(g, h, Acknowledge(n, from, index))
  {
    hide Remembers, LogOk, Certified;
  }

  /** A leader notes an acknowledgement that was made to it. */
  lemma AcknowledgeMove(g: Group, h: Hist, n: Node, from: Id, index: nat)
    requires Ready(g, h, n) && (n.role == Leader ==> index <= Claim(h, n.term, from))
    ensures Moved(g, h, n, h, Acknowledge(n, from, index))
  {
    hide HistOk, NodeOk;
    AcknowledgeNode(g, h, n, from, index);
    MoveRefl(n.id, h);
  }

  lemma PersistedNode(g: Group, h: Hist, n: Node, index: nat)
    requires NodeOk(g, h, n) && index <= |n.log|
    ensures NodeOk(g, h, n.(persisted := index))
  {
    hide Remembers, LogOk, Certified;
  }

  lemma PersistedMove(g: Group, h: Hist, n: Node, index: nat)
    requires Ready(g, h, n) && index <= |n.log|
    ensures Moved(g, h, n, h, n.(persisted := index))
  {
    hide HistOk, NodeOk;
    PersistedNode(g, h, n, index);
    MoveRefl(n.id, h);
  }
}
