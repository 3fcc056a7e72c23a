/** Every message handler of a node is made of legal moves and sends only justified messages. */
module Handlers {
  import opened Types
  import opened Quorum
  import opened ReadQueue
  import opened RaftNode
  import opened History
  import opened Growth
  import opened Invariant
  import opened Moves
  import opened LogMoves
  import opened ReadMoves

  ghost predicate Sends(g: Group, h: Hist, out: set<Msg>) {
    forall m :: m in out ==> MsgOk(g, h, m)
  }

  /** A node whose invariant holds handles an input: the new state and the messages are justified. */
  ghost predicate Handled(g: Group, h: Hist, n: Node, h': Hist, r: Outcome) {
    r.Ok? ==> Moved(g, h, n, h', r.node) && Sends(g, h', r.out)
  }

  lemma HandledThen(g: Group, a: Hist, x: Node, b: Hist, y: Node, c: Hist, r: Outcome)
    requires Moved(g, a, x, b, y) && Handled(g, b, y, c, r)
    ensures Handled(g, a, x, c, r)
  {
    hide HistOk, NodeOk;
    if r.Ok? {
      MovedTrans(g, a, x, b, y, c, r.node);
    }
  }

  // ----- learning a commit index by vote or read response

  lemma ByVoteCertified(g: Group, h: Hist, n: Node, c: nat, ct: nat, lim: nat)
    requires LogOk(h, n.log) && VoteCommit(g, h, c, ct, lim) && (g.preVote || lim <= n.term)
    requires LeadsOk(g, h) && c > 0 && ct > 0 && Has(n.log, c, ct)
    ensures Certified(g, h, n.log, c, n.term)
  {
    var t :| VoteCommitBy(g, h, c, ct, lim, t);
    assert LeadOk(g, h, t);
    LogMatching(h, n.log, h.lead[t].log, c, ct);
    assert CertifiedBy(g, h, n.log, c, n.term, t);
  }

  lemma HistLeads(g: Group, h: Hist)
    requires HistOk(g, h)
    ensures LeadsOk(g, h)
  {
  }

  lemma CommitAtMoved(g: Group, h: Hist, n: Node, c: nat, ct: nat, lim: nat)
    requires Ready(g, h, n) && VoteCommit(g, h, c, ct, lim) && (g.preVote || lim <= n.term)
    requires c > 0 && ct > 0 && n.role != Leader
    ensures Moved(g, h, n, h, MaybeCommitAt(n, c, ct))
  {
    hide HistOk, NodeOk, VoteCommit, LogOk, LeadsOk;
    NodeFacts(g, h, n);
    HistLeads(g, h);
    if c > n.committed && Has(n.log, c, ct) {
      ByVoteCertified(g, h, n, c, ct, lim);
      CommitMove(g, h, n, c);
    } else {
      MoveRefl(n.id, h);
    }
  }

  /** Stepping down within the term. */
  lemma StepDownMoved(g: Group, h: Hist, n: Node)
    requires Ready(g, h, n)
    ensures Moved(g, h, n, h, BecomeFollower(n, n.term, NONE))
  {
    SoftMove(g, h, n, BecomeFollower(n, n.term, NONE));
  }

  lemma StayMoved(g: Group, h: Hist, n: Node)
    requires Ready(g, h, n)
    ensures Moved(g, h, n, h, n)
  {
    MoveRefl(n.id, h);
  }

  lemma MaybeCommitByVoteCases(n: Node, c: nat, ct: nat)
    ensures var n' := MaybeCommitByVote(n, c, ct);
            || n' == n
            || (c > 0 && ct > 0 && n.role != Leader && (n' == MaybeCommitAt(n, c, ct) ||
                n' == BecomeFollower(MaybeCommitAt(n, c, ct), n.term, NONE)))
  {
  }

  lemma MaybeCommitByVoteHandled(g: Group, h: Hist, n: Node, c: nat, ct: nat, lim: nat)
    requires Ready(g, h, n) && VoteCommit(g, h, c, ct, lim) && (g.preVote || lim <= n.term)
    ensures Moved(g, h, n, h, MaybeCommitByVote(n, c, ct))
  {
    MaybeCommitByVoteCases(n, c, ct);
    if MaybeCommitByVote(n, c, ct) == n {
      StayMoved(g, h, n);
    } else {
      var a := MaybeCommitAt(n, c, ct);
      CommitAtMoved(g, h, n, c, ct, lim);
      StepDownMoved(g, h, a);
      MovedTrans(g, h, n, h, a, h, BecomeFollower(a, n.term, NONE));
    }
  }

  lemma OwnCommitIsReal(g: Group, h: Hist, n: Node, lim: nat)
    requires NodeOk(g, h, n) && n.term <= lim
    ensures VoteCommit(g, h, n.committed, TermAt(n.log, n.committed), lim)
  {
    if n.committed > 0 {
      var t :| CertifiedBy(g, h, n.log, n.committed, n.term, t);
      assert n.log[..n.committed][n.committed - 1] == h.lead[t].log[n.committed - 1];
      assert VoteCommitBy(g, h, n.committed, TermAt(n.log, n.committed), lim, t);
    }
  }

  // ----- voting

  lemma GrantedHandled(g: Group, h: Hist, n: Node, m: Msg) returns (h': Hist)
    requires Ready(g, h, n) && m.RequestVote? && MsgOk(g, h, m)
    requires (m.pre || m.term == n.term) && Grants(n, m)
    ensures Moved(g, h, n, h', if m.pre then n else n.(vote := m.from))
    ensures MsgOk(g, h', VoteResp(n.id, m.from, m.term, m.pre, false, 0, 0))
  {
    if m.pre {
      h' := h;
      StayMoved(g, h, n);
    } else {
      h' := CastVoteMove(g, h, n, m);
    }
  }

  lemma VoteRequestHandled(g: Group, h: Hist, n: Node, m: Msg) returns (h': Hist)
    requires Ready(g, h, n) && m.RequestVote? && MsgOk(g, h, m)
    requires m.pre || m.term == n.term
    ensures Handled(g, h, n, h', HandleVoteRequest(n, m))
  {
    hide HistOk, NodeOk;
    if Grants(n, m) {
      h' := GrantedHandled(g, h, n, m);
    } else {
      h' := h;
      MaybeCommitByVoteHandled(g, h, n, m.commit, m.commitTerm, m.term);
      OwnCommitIsReal(g, h, n, n.term);
    }
  }

  lemma VotesNode(g: Group, h: Hist, n: Node, from: Id, vote: bool)
    requires NodeOk(g, h, n)
    requires n.role == Candidate && vote ==> Supports(h, n.term, from, n.id)
    ensures NodeOk(g, h, WithVote(n, from, vote))
  {
    hide Remembers, LogOk, Certified;
  }

  lemma VotesMove(g: Group, h: Hist, n: Node, from: Id, vote: bool)
    requires Ready(g, h, n)
    requires n.role == Candidate && vote ==> Supports(h, n.term, from, n.id)
    ensures Moved(g, h, n, h, WithVote(n, from, vote))
  {
    VotesNode(g, h, n, from, vote);
    MoveRefl(n.id, h);
  }

  lemma VoteRequestsSent(g: Group, h: Hist, n: Node, pre: bool, term: nat)
    requires NodeOk(g, h, n) && term > 0
    requires if pre then g.preVote && n.term <= term else n.role == Candidate && term == n.term
    ensures Sends(g, h, VoteRequests(g, n, pre, term))
  {
    OwnCommitIsReal(g, h, n, term);
  }

  // ----- becoming leader

  lemma LeaderLog(g: Group, h: Hist, n: Node)
    requires Ready(g, h, n) && n.role == Leader && n.persisted <= |n.log|
    ensures MayClaim(g, h, n, n.persisted)
  {
    hide HistOk, NodeOk, MayClaim;
    NodeFacts(g, h, n);
    MatchingMayClaim(g, h, n, n.persisted);
  }

  lemma ElectedMoved(g: Group, h: Hist, n: Node) returns (h': Hist)
    requires Ready(g, h, n) && n.role == Candidate && JointVote(g.cfg, n.votes) == Won
    ensures Moved(g, h, n, h', Elected(n))
  {
    WonIsQuorum(g.cfg, n.votes);
    h' := ElectMove(g, h, n, Yes(Voters(g.cfg), n.votes));
  }

  lemma OwnAckMoved(g: Group, h: Hist, n: Node) returns (h': Hist)
    requires Ready(g, h, n) && n.role == Leader && n.persisted <= |n.log|
    ensures Moved(g, h, n, h', Acknowledge(n, n.id, n.persisted))
  {
    LeaderLog(g, h, n);
    h' := ClaimMove(g, h, n, n.persisted);
    AcknowledgeMove(g, h', n, n.id, n.persisted);
    MovedTrans(g, h, n, h', n, h', Acknowledge(n, n.id, n.persisted));
  }

  lemma BecomeLeaderHandled(g: Group, h: Hist, n: Node) returns (h': Hist)
    requires Ready(g, h, n) && n.role == Candidate && JointVote(g.cfg, n.votes) == Won
    ensures Handled(g, h, n, h', BecomeLeader(n))
  {
    hide HistOk, NodeOk;
    if n.persisted != |n.log| {
      h' := h;
    } else {
      var e := Elected(n);
      var h1 := ElectedMoved(g, h, n);
      var h2 := OwnAckMoved(g, h1, e);
      var a := Acknowledge(e, e.id, e.persisted);
      MovedTrans(g, h, n, h1, e, h2, a);
      var es := [EmptyEntry(n.term, |n.log| + 1)];
      h' := LeaderAppendMove(g, h2, a, es);
      MovedTrans(g, h, n, h2, a, h', a.(log := a.log + es));
      BecomeLeaderResult(g, h, n);
    }
  }

  lemma BecomeLeaderResult(g: Group, h: Hist, n: Node)
    requires n.persisted == |n.log| && NodeOk(g, h, n)
    ensures var e := Elected(n);
            var a := Acknowledge(e, e.id, e.persisted);
            BecomeLeader(n) == Ok(a.(log := a.log + [EmptyEntry(n.term, |n.log| + 1)]), {})
  {
    var e := Elected(n);
    var a := Acknowledge(e, e.id, e.persisted);
    assert a.matched == Reset(n, n.term).matched;
  }

  // ----- campaigns

  lemma CampaignHandled(g: Group, h: Hist, n: Node) returns (h': Hist)
    requires Ready(g, h, n) && n.role != Leader && n.id in Voters(g.cfg)
    ensures Handled(g, h, n, h', Campaign(g, n))
  {
    hide HistOk, NodeOk;
    var c := WithVote(BecomeCandidate(n), n.id, true);
    var h1 := CampaignMove(g, h, n);
    VoteRequestsSent(g, h1, c, false, c.term);
    match JointVote(g.cfg, c.votes)
    case Won =>
      h' := BecomeLeaderHandled(g, h1, c);
      HandledThen(g, h, n, h1, c, h', BecomeLeader(c));
    case Lost =>
      h' := h1;
      var f := BecomeFollower(c, c.term, NONE);
      SoftMove(g, h1, c, f);
      MovedTrans(g, h, n, h1, c, h1, f);
    case Pending =>
      h' := h1;
  }

  /** A pre-candidacy leaves no trace in the campaign that follows it. */
  lemma CampaignAfterPre(g: Group, n: Node)
    ensures Campaign(g, WithVote(BecomePreCandidate(n), n.id, true)) == Campaign(g, n)
  {
    assert BecomeCandidate(WithVote(BecomePreCandidate(n), n.id, true)) == BecomeCandidate(n);
  }

  lemma PreCampaignHandled(g: Group, h: Hist, n: Node) returns (h': Hist)
    requires Ready(g, h, n) && n.role != Leader && g.preVote && n.id in Voters(g.cfg)
    ensures Handled(g, h, n, h', PreCampaign(g, n))
  {
    hide HistOk, NodeOk, Campaign, BecomeFollower;
    var c := WithVote(BecomePreCandidate(n), n.id, true);
    assert c.votes == map[n.id := true];
    NodeFacts(g, h, n);
    match JointVote(g.cfg, c.votes)
    case Won =>
      h' := CampaignHandled(g, h, n);
      CampaignAfterPre(g, n);
    case Lost =>
      h' := h;
      PreCandidateHandled(g, h, n, c);
      StepDownMoved(g, h, c);
      MovedTrans(g, h, n, h, c, h, BecomeFollower(c, c.term, NONE));
    case Pending =>
      h' := h;
      PreCandidateHandled(g, h, n, c);
  }

  lemma PreCandidateHandled(g: Group, h: Hist, n: Node, c: Node)
    requires Ready(g, h, n) && n.role != Leader && g.preVote && n.id in Voters(g.cfg) && !WinsAlone(g, n.id)
    requires c == WithVote(BecomePreCandidate(n), n.id, true)
    ensures Moved(g, h, n, h, c) && Sends(g, h, VoteRequests(g, c, true, n.term + 1))
  {
    hide HistOk, NodeOk;
    NodeFacts(g, h, n);
    SoftMove(g, h, n, c);
    VoteRequestsSent(g, h, c, true, n.term + 1);
  }

  lemma PollHandled(g: Group, h: Hist, n: Node, from: Id, vote: bool) returns (h': Hist)
    requires Ready(g, h, n) && (n.role == Candidate || n.role == PreCandidate)
    requires n.role == Candidate && vote ==> Supports(h, n.term, from, n.id)
    ensures Handled(g, h, n, h', Poll(g, n, from, vote))
  {
    hide HistOk, NodeOk;
    var c := WithVote(n, from, vote);
    NodeFacts(g, h, n);
    VotesMove(g, h, n, from, vote);
    match JointVote(g.cfg, c.votes)
    case Won =>
      if c.role == PreCandidate {
        h' := CampaignHandled(g, h, c);
      } else {
        h' := BecomeLeaderHandled(g, h, c);
      }
      HandledThen(g, h, n, h, c, h', Poll(g, n, from, vote));
    case Lost =>
      h' := h;
      var f := BecomeFollower(c, c.term, NONE);
      SoftMove(g, h, c, f);
      MovedTrans(g, h, n, h, c, h, f);
    case Pending =>
      h' := h;
  }

  lemma PollKeepsTerm(g: Group, n: Node, from: Id, vote: bool)
    ensures Poll(g, n, from, vote).Ok? ==> Poll(g, n, from, vote).node.term >= n.term
  {
  }

  lemma VoteResponseHandled(g: Group, h: Hist, n: Node, m: Msg) returns (h': Hist)
    requires Ready(g, h, n) && (n.role == Candidate || n.role == PreCandidate)
    requires m.VoteResp? && MsgOk(g, h, m) && m.to == n.id
    requires g.preVote || m.term == n.term
    requires !m.pre ==> m.term == n.term
    ensures Handled(g, h, n, h', HandleVoteResponse(g, n, m))
  {
    hide HistOk, NodeOk, VoteCommit, Poll, MaybeCommitByVote;
    if (n.role == PreCandidate && !m.pre) || (n.role == Candidate && m.pre) {
      h' := h;
      MoveRefl(n.id, h);
    } else {
      h' := PollHandled(g, h, n, m.from, !m.reject);
      var r := Poll(g, n, m.from, !m.reject);
      if r.Ok? {
        VoteCommitGrows(g, h, h', m.commit, m.commitTerm, m.term);
        PollKeepsTerm(g, n, m.from, !m.reject);
        MaybeCommitByVoteHandled(g, h', r.node, m.commit, m.commitTerm, m.term);
        MovedTrans(g, h, n, h', r.node, h', MaybeCommitByVote(r.node, m.commit, m.commitTerm));
      }
    }
  }
}
