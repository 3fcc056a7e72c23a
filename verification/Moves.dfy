/** The elementary moves that every handler is made of. Each keeps the history invariant and the
    node's own invariant; `Growth` and `Invariant` take care of everything else. */
module Moves {
  import opened Types
  import opened Quorum
  import opened ReadQueue
  import opened RaftNode
  import opened History
  import opened Growth
  import opened Invariant

  /** From history `h` and a good node, `h'` and `n'` are reached by a legal move of that node. */
  ghost predicate Moved(g: Group, h: Hist, n: Node, h': Hist, n': Node) {
    && HistOk(g, h')
    && Move(n.id, h, h')
    && h'.asked == h.asked && h'.reused == h.reused
    && n'.id == n.id
    && NodeOk(g, h', n')
  }

  ghost predicate Ready(g: Group, h: Hist, n: Node) {
    GroupOk(g) && HistOk(g, h) && NodeOk(g, h, n)
  }

  lemma MovedTrans(g: Group, a: Hist, x: Node, b: Hist, y: Node, c: Hist, z: Node)
    requires Moved(g, a, x, b, y) && Moved(g, b, y, c, z)
    ensures Moved(g, a, x, c, z)
  {
    MoveTrans(x.id, a, b, c);
  }

  /** The simple facts of a node's invariant. */
  lemma NodeFacts(g: Group, h: Hist, n: Node)
    requires NodeOk(g, h, n)
    ensures n.id in g.peers && n.matched.Keys == g.peers && n.persisted <= |n.log| && n.committed <= |n.log|
    ensures Epoch(h, n.id) == n.term
    ensures LogOk(h, n.log) && TermsBelow(n.log, n.term + 1)
    ensures n.role != Leader ==> n.waiting == NoReads
    ensures n.role != Follower ==> n.id in Voters(g.cfg)
    ensures n.role == PreCandidate ==> g.preVote && !WinsAlone(g, n.id)
    ensures Certified(g, h, n.log, n.committed, n.term)
    ensures ReadsOk(n.waiting)
    ensures n.role == Leader ==> n.term in h.lead && h.lead[n.term].id == n.id && h.lead[n.term].log == n.log
  {
    hide LogOk, Remembers, ReadsOk;
  }

  /** Reads are not disturbed by a move that leaves them alone. */
  lemma ReadsKept(g: Group, h: Hist, h': Hist, n: Node, n': Node)
    requires NodeOk(g, h, n) && Grows(h, h')
    requires n'.waiting == n.waiting && n'.term == n.term && n'.readStates == n.readStates
    ensures ReadsFit(g, h', n') && AnswersOk(h', n')
  {
    hide ReadsFit, AnswersOk, Remembers, Certified, LogOk, ReadsOk, Grows, EpochGrows, LeadGrows, ClaimsGrow, RunsKeep, VotesKeep;
    ReadsFitGrows(g, h, h', n);
    ReadsFitSame(g, h', n, n');
    GrowsAsks(h, h');
    AnswersGrow(h, h', n);
    AnswersSame(h', n, n');
  }

  lemma GrowsAsks(h: Hist, h': Hist)
    requires Grows(h, h')
    ensures AsksKeep(h, h')
  {
  }

  // ----- changes of role and term

  /** Any change of the volatile fields of a node that neither leads nor campaigns afterwards. */
  lemma SoftMove(g: Group, h: Hist, n: Node, n': Node)
    requires Ready(g, h, n)
    requires n' == n.(role := n'.role, leaderId := n'.leaderId, votes := n'.votes, waiting := NoReads, matched := n'.matched)
    requires n'.role == Follower || (n'.role == PreCandidate && n.id in Voters(g.cfg) && g.preVote && !WinsAlone(g, n.id))
    requires n'.matched.Keys == n.matched.Keys
    ensures Moved(g, h, n, h, n')
  {
    hide HistOk, Remembers, LogOk, Certified;
    MoveRefl(n.id, h);
  }

  lemma BumpHist(g: Group, h: Hist, id: Id, term: nat) returns (h': Hist)
    requires HistOk(g, h) && term > Epoch(h, id)
    ensures h' == h.(epoch := h.epoch[id := term])
    ensures HistOk(g, h') && Move(id, h, h')
    ensures Claim(h', term, id) == 0
    ensures (term, id) !in h.votes && (term, id) !in h.runs
  {
    h' := h.(epoch := h.epoch[id := term]);
    BumpGrown(h, h', id, term);
    forall t, v | (t, v) in h'.claims && !((t, v) in h.claims && h.claims[(t, v)] == h'.claims[(t, v)] > 0)
      ensures ClaimOk(g, h', t, v)
    {
      assert ClaimOk(g, h, t, v);
      assert Epoch(h, v) <= Epoch(h', v);
    }
    HistOkGrows(g, h, h');
    if Claim(h, term, id) > 0 {
      NoLeadNoClaim(g, h, term, id);
    }
    assert (term, id) in h.votes ==> VoteOk(g, h, term, id);
    assert (term, id) in h.runs ==> RunOk(g, h, term, id);
  }

  lemma BumpGrown(h: Hist, h': Hist, id: Id, term: nat)
    requires term > Epoch(h, id) && h' == h.(epoch := h.epoch[id := term])
    ensures Move(id, h, h')
    ensures forall t, v :: Claim(h', t, v) == Claim(h, t, v)
  {
    forall v ensures Epoch(h, v) <= Epoch(h', v) {}
    assert forall t, v :: Claim(h', t, v) == Claim(h, t, v);
    assert LeadGrows(h, h') by {
      forall t | t in h.lead ensures LeadGrowsAt(h, h', t) {}
    }
  }

  lemma BumpMove(g: Group, h: Hist, n: Node, term: nat, leader: Id) returns (h': Hist)
    requires Ready(g, h, n) && term > n.term
    ensures Moved(g, h, n, h', BecomeFollower(n, term, leader))
    ensures (term, n.id) !in h'.runs
  {
    hide AsksOk, ReadsFit, AnswersOk, CmtsOk, VotesOk, RunsOk, LeadsOk, CandidateOk, LeaderOk, Certified, BallotOk, LogOk;
    h' := BumpHist(g, h, n.id, term);
    RemembersGrows(g, h, h', n.id, n.log, n.term + 1);
    BumpRemembers(g, h, h', n, term);
    BumpNode(g, h, h', n, term, leader);
  }

  lemma BumpNode(g: Group, h: Hist, h': Hist, n: Node, term: nat, leader: Id)
    requires NodeOk(g, h, n) && term > n.term
    requires h' == h.(epoch := h.epoch[n.id := term]) && LeadGrows(h, h')
    requires Remembers(g, h', n.id, n.log, term + 1)
    requires Claim(h', term, n.id) == 0 && (term, n.id) !in h.votes
    ensures NodeOk(g, h', BecomeFollower(n, term, leader))
  {
    hide Remembers, LogOk, Certified, AnswersOk, WaitingOk;
    LogOkGrows(h, h', n.log);
    CertifiedGrows(g, h, h', n.log, n.committed, n.term, term);
    AnswersGrow(h, h', n);
    AnswersSame(h', n, BecomeFollower(n, term, leader));
  }

  lemma BumpRemembers(g: Group, h: Hist, h': Hist, n: Node, term: nat)
    requires HistOk(g, h) && NodeOk(g, h, n) && term > n.term
    requires h' == h.(epoch := h.epoch[n.id := term]) && Grows(h, h')
    requires Remembers(g, h', n.id, n.log, n.term + 1)
    ensures Remembers(g, h', n.id, n.log, term + 1)
  {
    forall t, j | t in h'.lead && t < term + 1 && 0 < j <= Claim(h', t, n.id) && Has(h'.lead[t].log, j, t)
      ensures Kept(g, h', n.log, t, j, term + 1)
    {
      NoLeadNoClaim(g, h, t, n.id);
      assert Kept(g, h', n.log, t, j, n.term + 1);
    }
  }

  lemma FollowMove(g: Group, h: Hist, n: Node, term: nat, leader: Id) returns (h': Hist)
    requires Ready(g, h, n) && term >= n.term
    ensures Moved(g, h, n, h', BecomeFollower(n, term, leader))
  {
    if term > n.term {
      h' := BumpMove(g, h, n, term, leader);
    } else {
      h' := h;
      SoftMove(g, h, n, BecomeFollower(n, term, leader));
    }
  }

  // ----- voting

  /** A vote cast in the voter's current term remembers everything needed if the term has no leader yet. */
  lemma VoteRemembers(g: Group, h: Hist, v: Id, log: seq<Entry>, t: nat)
    requires Remembers(g, h, v, log, t + 1) && t !in h.lead
    ensures Remembers(g, h, v, log, t)
  {
    forall t1, j | t1 in h.lead && t1 < t && 0 < j <= Claim(h, t1, v) && Has(h.lead[t1].log, j, t1)
      ensures Kept(g, h, log, t1, j, t)
    {
      assert Kept(g, h, log, t1, j, t + 1);
      if t2 :| t1 < t2 < t + 1 && Lacks(h, t2, j, t1) {
        assert t2 != t;
      }
    }
  }

  /** A history to which only votes, candidacies or queued reads were added. */
  lemma SameGrown(h: Hist, h': Hist, id: Id)
    requires h'.epoch == h.epoch && h'.lead == h.lead && h'.claims == h.claims && h'.cmt == h.cmt
    requires RunsKeep(h, h') && VotesKeep(h, h') && AsksKeep(h, h')
    requires forall t, v :: v != id && (t, v) in h'.votes ==> (t, v) in h.votes
    ensures Move(id, h, h')
  {
    assert LeadGrows(h, h') by {
      forall t | t in h.lead ensures LeadGrowsAt(h, h', t) {}
    }
  }

  lemma VoteHist(g: Group, h: Hist, v: Id, t: nat, cand: Id, log: seq<Entry>) returns (h': Hist)
    requires HistOk(g, h)
    requires Epoch(h, v) == t && (t, v) !in h.votes
    requires LogOk(h, log) && Remembers(g, h, v, log, t + 1)
    requires (t, cand) in h.runs && AsUpToDate(h.runs[(t, cand)], log)
    ensures h' == h.(votes := h.votes[(t, v) := Vote(cand, log)])
    ensures HistOk(g, h') && Move(v, h, h')
  {
    h' := h.(votes := h.votes[(t, v) := Vote(cand, log)]);
    hide EntryOk, AsUpToDate;
    SameGrown(h, h', v);
    LogOkGrows(h, h', log);
    if t in h.lead {
      assert LeadOk(g, h, t);
    } else {
      VoteRemembers(g, h, v, log, t);
      RemembersGrows(g, h, h', v, log, t);
    }
    assert VoteOk(g, h', t, v);
    ClaimsSame(g, h, h');
    HistOkGrows(g, h, h');
  }

  /** Moves that make no claims keep the claims justified. */
  lemma ClaimsSame(g: Group, h: Hist, h': Hist)
    requires ClaimsOk(g, h) && Grows(h, h') && h'.claims == h.claims
    ensures ClaimsOk(g, h')
  {
    forall t, v | (t, v) in h'.claims
      ensures ClaimOk(g, h', t, v)
    {
      assert ClaimOk(g, h, t, v);
      assert LeadGrowsAt(h, h', t);
      assert Epoch(h, v) <= Epoch(h', v);
      forall j | |h'.lead[t].log| < j <= h'.claims[(t, v)]
        ensures Blocked(g, h', t, j)
      {
        BlockedGrows(g, h, h', t, j);
      }
    }
  }

  lemma RunHist(g: Group, h: Hist, id: Id, t: nat, log: seq<Entry>) returns (h': Hist)
    requires HistOk(g, h)
    requires Epoch(h, id) == t > 0 && (t, id) !in h.runs
    requires LogOk(h, log) && TermsBelow(log, t) && id in Voters(g.cfg)
    ensures h' == h.(runs := h.runs[(t, id) := log])
    ensures HistOk(g, h') && Move(id, h, h')
  {
    h' := h.(runs := h.runs[(t, id) := log]);
    SameGrown(h, h', id);
    LogOkGrows(h, h', log);
    assert RunOk(g, h', t, id);
    ClaimsSame(g, h, h');
    HistOkGrows(g, h, h');
  }

  /** The part of `NodeOk` that adding votes and runs cannot disturb. */
  lemma NodeOkKeeps(g: Group, h: Hist, h': Hist, n: Node)
    requires NodeOk(g, h, n) && ClaimsOk(g, h) && Grows(h, h')
    requires h'.epoch == h.epoch && h'.lead == h.lead && h'.claims == h.claims && h'.cmt == h.cmt && h'.asked == h.asked && h'.reused == h.reused
    ensures LogOk(h', n.log)
    ensures Certified(g, h', n.log, n.committed, n.term)
    ensures Remembers(g, h', n.id, n.log, n.term + 1)
    ensures ClaimHeld(h', n) && AnswersOk(h', n) && LeaderOk(g, h', n)
    ensures ShapeOk(g, h', n)
  {
    hide ReadsFit, AnswersOk;
    LogOkGrows(h, h', n.log);
    CertifiedGrows(g, h, h', n.log, n.committed, n.term, n.term);
    RemembersGrows(g, h, h', n.id, n.log, n.term + 1);
    AnswersGrow(h, h', n);
  }

  lemma NodeBallot(g: Group, h: Hist, n: Node)
    requires NodeOk(g, h, n)
    ensures BallotOk(g, h, n) && Remembers(g, h, n.id, n.log, n.term + 1)
  {
    hide Remembers;
  }

  lemma HistClaims(g: Group, h: Hist)
    requires HistOk(g, h)
    ensures ClaimsOk(g, h)
  {
  }

  lemma HistAsks(g: Group, h: Hist)
    requires HistOk(g, h)
    ensures AsksOk(g, h) && LeadsOk(g, h)
  {
  }

  lemma CastVoteMove(g: Group, h: Hist, n: Node, m: Msg) returns (h': Hist)
    requires Ready(g, h, n) && m.RequestVote? && MsgOk(g, h, m)
    requires !m.pre && m.term == n.term && Grants(n, m)
    ensures Moved(g, h, n, h', n.(vote := m.from))
    ensures Supports(h', n.term, n.id, m.from)
  {
    hide HistOk, NodeOk;
    NodeBallot(g, h, n);
    NodeFacts(g, h, n);
    HistClaims(g, h);
    if n.vote == m.from {
      h' := h;
      MoveRefl(n.id, h);
    } else {
      h' := VoteHist(g, h, n.id, n.term, m.from, n.log);
      VoteNode(g, h, h', n, m.from);
    }
  }

  lemma VoteNode(g: Group, h: Hist, h': Hist, n: Node, cand: Id)
    requires GroupOk(g) && NodeOk(g, h, n) && ClaimsOk(g, h) && Grows(h, h')
    requires n.vote == NONE && cand != NONE
    requires h' == h.(votes := h.votes[(n.term, n.id) := Vote(cand, n.log)])
    ensures NodeOk(g, h', n.(vote := cand))
  {
    hide Remembers, LogOk, Certified, ReadsFit, AnswersOk;
    NodeOkKeeps(g, h, h', n);
    ReadsKept(g, h, h', n, n.(vote := cand));
  }

  // ----- campaigns

  lemma NeverRanNeverLed(g: Group, h: Hist, t: nat, id: Id)
    requires LeadsOk(g, h) && (t, id) !in h.runs
    ensures !(t in h.lead && h.lead[t].id == id)
  {
    if t in h.lead {
      assert LeadOk(g, h, t);
    }
  }

  lemma UpToDateWithSelf(log: seq<Entry>)
    ensures AsUpToDate(log, log)
  {
  }

  lemma CampaignMove(g: Group, h: Hist, n: Node) returns (h': Hist)
    requires Ready(g, h, n) && n.role != Leader && n.id in Voters(g.cfg)
    ensures Moved(g, h, n, h', WithVote(BecomeCandidate(n), n.id, true))
  {
    hide HistOk, NodeOk;
    NodeFacts(g, h, n);
    var n1 := BecomeFollower(n, n.term + 1, NONE);
    var h1 := BumpMove(g, h, n, n.term + 1, NONE);
    h' := CandidacyMove(g, h1, n1);
    var n2 := n1.(vote := n.id, role := Candidate, leaderId := NONE, votes := map[n.id := true]);
    MovedTrans(g, h, n, h1, n1, h', n2);
    assert n2 == WithVote(BecomeCandidate(n), n.id, true);
  }

  lemma CandidacyMove(g: Group, h: Hist, n: Node) returns (h': Hist)
    requires Ready(g, h, n) && n.role == Follower && n.vote == NONE && n.term > 0 && n.id in Voters(g.cfg)
    requires TermsBelow(n.log, n.term) && (n.term, n.id) !in h.runs
    ensures Moved(g, h, n, h', n.(vote := n.id, role := Candidate, leaderId := NONE, votes := map[n.id := true]))
  {
    var h1 := RunHist(g, h, n.id, n.term, n.log);
    UpToDateWithSelf(n.log);
    NodeOkKeeps(g, h, h1, n);
    h' := VoteHist(g, h1, n.id, n.term, n.id, n.log);
    MoveTrans(n.id, h, h1, h');
    CandidateNode(g, h, h', n);
  }

  lemma CandidateNode(g: Group, h: Hist, h': Hist, n: Node)
    requires GroupOk(g) && LeadsOk(g, h) && ClaimsOk(g, h) && NodeOk(g, h, n) && n.role == Follower && n.id in Voters(g.cfg)
    requires (n.term, n.id) !in h.runs && Grows(h, h')
    requires h' == h.(runs := h.runs[(n.term, n.id) := n.log], votes := h.votes[(n.term, n.id) := Vote(n.id, n.log)])
    ensures NodeOk(g, h', n.(vote := n.id, role := Candidate, leaderId := NONE, votes := map[n.id := true]))
  {
    hide Remembers, LogOk, Certified, AnswersOk;
    NodeOkKeeps(g, h, h', n);
    AnswersSame(h', n, n.(vote := n.id, role := Candidate, leaderId := NONE, votes := map[n.id := true]));
    NeverRanNeverLed(g, h, n.term, n.id);
  }
}
