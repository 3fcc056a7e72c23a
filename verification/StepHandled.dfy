/** The leader's handlers, the dispatch on the role, and one whole step of a node. */
module StepHandled {
  import opened Types
  import opened Quorum
  import opened ReadQueue
  import opened RaftNode
  import opened History
  import opened Growth
  import opened Invariant
  import opened Moves
  import opened LogMoves
  import opened ReadMoves
  import opened Handlers
  import opened AppendHandled

  // ----- commit by counting

  lemma NodeLeader(g: Group, h: Hist, n: Node)
    requires NodeOk(g, h, n)
    ensures LeaderOk(g, h, n) && ReadsFit(g, h, n)
  {
    hide Remembers;
  }

  lemma CountMoved(g: Group, h: Hist, n: Node, mci: nat) returns (h': Hist)
    requires Ready(g, h, n) && n.role == Leader && Committable(g, n.matched, mci)
    ensures Moved(g, h, n, h', MaybeCommitAt(n, mci, n.term))
  {
    hide HistOk, NodeOk, LeaderOk;
    if mci > n.committed && mci <= |n.log| && TermAt(n.log, mci) == n.term {
      h' := LeaderCommitMove(g, h, n, mci);
    } else {
      h' := h;
      StayMoved(g, h, n);
    }
  }

  lemma AppendResponseMoved(g: Group, h: Hist, n: Node, m: Msg, mci: nat) returns (h': Hist)
    requires Ready(g, h, n) && n.role == Leader
    requires m.AppendResp? && MsgOk(g, h, m) && m.term == n.term
    requires Committable(g, Acknowledge(n, m.from, m.index).matched, mci)
    ensures Moved(g, h, n, h', HandleAppendResponse(n, m, mci))
  {
    hide HistOk, NodeOk;
    var a := Acknowledge(n, m.from, m.index);
    if m.reject || a == n {
      h' := h;
      StayMoved(g, h, n);
    } else {
      AcknowledgeMove(g, h, n, m.from, m.index);
      h' := CountMoved(g, h, a, mci);
      MovedTrans(g, h, n, h, a, h', MaybeCommitAt(a, mci, n.term));
    }
  }

  lemma PersistMoved(g: Group, h: Hist, n: Node, index: nat, mci: nat) returns (h': Hist)
    requires Ready(g, h, n) && index <= |n.log|
    requires Committable(g, Acknowledge(n, n.id, index).matched, mci)
    ensures Moved(g, h, n, h', PersistTo(n, index, mci))
  {
    hide HistOk, NodeOk;
    var n1 := n.(persisted := index);
    PersistedMove(g, h, n, index);
    if index <= n.persisted {
      h' := h;
      StayMoved(g, h, n);
    } else if n.role != Leader {
      h' := h;
    } else {
      var h1 := OwnAckMoved(g, h, n1);
      MovedTrans(g, h, n, h, n1, h1, Acknowledge(n1, n.id, index));
      var n2 := Acknowledge(n1, n.id, index);
      if n2 == n1 {
        h' := h1;
      } else {
        h' := CountMoved(g, h1, n2, mci);
        MovedTrans(g, h, n, h1, n2, h', MaybeCommitAt(n2, mci, n.term));
      }
    }
  }

  // ----- reads

  lemma AcksConfirm(g: Group, h: Hist, n: Node, c: Ctx)
    requires GroupOk(g) && AsksOk(g, h) && LeadsOk(g, h) && NodeOk(g, h, n) && n.role == Leader
    requires c in n.waiting.pending && c != [] && JointVote(g.cfg, YesFrom(n.waiting.pending[c].acks)) == Won
    ensures CanAdvance(n.waiting, c)
    ensures forall d :: d in Released(n.waiting, c) ==>
              d in n.waiting.pending && Answerable(g, h, n, d, n.waiting.pending[d].index)
  {
    hide AsksOk, LeadsOk, NodeOk, ReadsFit, ReadsOk, JointVote;
    AcksAreQuorum(g.cfg, n.waiting.pending[c].acks);
    NodeFacts(g, h, n);
    NodeLeader(g, h, n);
    OkCanAdvance(n.waiting, c);
    hide CanAdvance;
    forall d | d in Released(n.waiting, c)
      ensures d in n.waiting.pending && Answerable(g, h, n, d, n.waiting.pending[d].index)
    {
      var i :| 0 <= i < |Released(n.waiting, c)| && Released(n.waiting, c)[i] == d;
      ReleasedAnswers(g, h, n, c, i);
    }
  }

  lemma LeaderTermReal(g: Group, h: Hist, n: Node)
    requires LeadsOk(g, h) && NodeOk(g, h, n) && n.role == Leader
    ensures n.term > 0
  {
    NodeFacts(g, h, n);
    LeadLogOk(g, h, n.term);
  }

  lemma AnsweredMoved(g: Group, h: Hist, n: Node, c: Ctx)
    requires Ready(g, h, n) && n.role == Leader
    requires c in n.waiting.pending && c != [] && JointVote(g.cfg, YesFrom(n.waiting.pending[c].acks)) == Won
    ensures CanAdvance(n.waiting, c) && forall d :: d in Released(n.waiting, c) ==> d in n.waiting.pending
    ensures var n1 := n.(waiting := Advance(n.waiting, c));
            var (n2, out) := RespondAll(n1, Released(n.waiting, c), n.waiting.pending);
            Moved(g, h, n, h, n2) && Sends(g, h, out)
  {
    hide HistOk, NodeOk, JointVote, AsksOk, LeadsOk, CanAdvance;
    HistAsks(g, h);
    AcksConfirm(g, h, n, c);
    AdvanceNode(g, h, n, c);
    LeaderTermReal(g, h, n);
    var n1 := n.(waiting := Advance(n.waiting, c));
    forall d | d in Released(n.waiting, c)
      ensures d in n.waiting.pending && Answerable(g, h, n1, d, n.waiting.pending[d].index)
    {
      assert Answerable(g, h, n, d, n.waiting.pending[d].index);
    }
    RespondAllNode(g, h, n1, Released(n.waiting, c), n.waiting.pending);
    MoveRefl(n.id, h);
  }

  lemma HeartbeatResponseHandled(g: Group, h: Hist, n: Node, m: Msg)
    requires Ready(g, h, n) && n.role == Leader
    requires m.HeartbeatResp? && MsgOk(g, h, m) && m.term == n.term
    ensures Handled(g, h, n, h, HandleHeartbeatResponse(g, n, m))
  {
    hide HistOk, NodeOk, JointVote, Advance, Released, RespondAll, CanAdvance;
    if m.from !in n.matched || m.ctx == [] {
      StayMoved(g, h, n);
    } else {
      var n1 := n.(waiting := RecvAck(n.waiting, m.from, m.ctx));
      AckMove(g, h, n, m.from, m.ctx);
      if m.ctx in n1.waiting.pending && JointVote(g.cfg, YesFrom(n1.waiting.pending[m.ctx].acks)) == Won {
        AnsweredMoved(g, h, n1, m.ctx);
        var n2 := n1.(waiting := Advance(n1.waiting, m.ctx));
        var n3 := RespondAll(n2, Released(n1.waiting, m.ctx), n1.waiting.pending).0;
        MovedTrans(g, h, n, h, n1, h, n3);
      }
    }
  }

  /** The leader takes on a read that it has not queued yet. */
  predicate TakesRead(g: Group, n: Node, m: Msg) {
    && m.ReadIndex?
    && n.role == Leader
    && CommittedInTerm(n)
    && (IsSingleton(g.cfg) || m.ctx !in n.waiting.pending)
  }

  /** Like a handled message, but the read is recorded: the first time with the commit indexes of that
      moment, later as taken on again. A single voter confirms its reads itself, and the empty context
      confirms none. */
  ghost predicate ReadTaken(g: Group, h: Hist, n: Node, c: Ctx, commits: map<Id, nat>, h': Hist, r: Outcome) {
    && r.Ok?
    && HistOk(g, h') && Move(n.id, h, h') && r.node.id == n.id && NodeOk(g, h', r.node)
    && h'.asked == (if (c, n.term) in h.asked then h.asked else h.asked[(c, n.term) := NewRec(h, n, commits)])
    && h'.reused == (if Retaken(g, h.asked.Keys, c, n.term) then h.reused + {n.term} else h.reused)
    && Sends(g, h', r.out)
  }

  predicate Retaken(g: Group, taken: set<(Ctx, nat)>, c: Ctx, t: nat) {
    (c, t) in taken && c != [] && !IsSingleton(g.cfg)
  }

  /** In a singleton configuration the leader is the only voter, so no quorum has moved on. */
  lemma SingletonCovers(g: Group, h: Hist, n: Node, c: Ctx)
    requires GroupOk(g) && AsksOk(g, h) && NodeOk(g, h, n) && n.role == Leader && IsSingleton(g.cfg)
    requires (c, n.term) in h.asked && CommittedAt(h, n.term, n.committed) && h.cmt[n.term] == n.committed
    ensures Answerable(g, h, n, c, n.committed)
  {
    hide NodeOk;
    NodeFacts(g, h, n);
    RecordedEarlier(g, h, n.term, c);
    assert AskOk(g, h, c, n.term);
    if !Covers(h.asked[(c, n.term)]) {
      var s :| IsQuorum(g.cfg, s) && s <= h.asked[(c, n.term)].moved;
      SingletonQuorum(g.cfg, s, n.id);
    }
    assert AnsweredBy(h, c, n.committed, c, n.term);
  }

  lemma ReadIndexTaken(g: Group, h: Hist, n: Node, m: Msg, commits: map<Id, nat>) returns (h': Hist)
    requires Ready(g, h, n) && TakesRead(g, n, m) && CommitsReal(h, commits)
    ensures ReadTaken(g, h, n, m.ctx, commits, h', HandleReadIndex(g, n, m))
  {
    hide HistOk, NodeOk, AsksOk, LeadsOk, CommittedAt;
    h' := ReadRecorded(g, h, n, m.ctx, commits);
    HistAsks(g, h');
    LeaderHasCommitted(g, h', n);
    if IsSingleton(g.cfg) {
      SingletonCovers(g, h', n, m.ctx);
      LeaderTermReal(g, h', n);
      RespondNode(g, h', n, m.from, m.ctx, n.committed);
    } else {
      QueueNode(g, h', n, m.ctx, m.from);
    }
  }

  lemma LeaderHasCommitted(g: Group, h: Hist, n: Node)
    requires LeadsOk(g, h) && NodeOk(g, h, n) && n.role == Leader && CommittedInTerm(n)
    ensures CommittedAt(h, n.term, n.committed) && h.cmt[n.term] == n.committed
  {
    hide LeadsOk, NodeOk;
    NodeFacts(g, h, n);
    NodeLeader(g, h, n);
    LeaderCommittedAt(g, h, n);
  }

  lemma ReadRecorded(g: Group, h: Hist, n: Node, c: Ctx, commits: map<Id, nat>) returns (h': Hist)
    requires Ready(g, h, n) && n.role == Leader && CommittedInTerm(n) && CommitsReal(h, commits)
    ensures HistOk(g, h') && Move(n.id, h, h') && NodeOk(g, h', n) && (c, n.term) in h'.asked
    ensures h'.asked == (if (c, n.term) in h.asked then h.asked else h.asked[(c, n.term) := NewRec(h, n, commits)])
    ensures h'.reused == (if Retaken(g, h.asked.Keys, c, n.term) then h.reused + {n.term} else h.reused)
    ensures (c, n.term) !in h.asked ==> h'.asked[(c, n.term)].moved == PastTerm(h', n.term)
  {
    hide HistOk, NodeOk, Move;
    if (c, n.term) !in h.asked {
      h' := AskMove(g, h, n, c, commits);
    } else if Retaken(g, h.asked.Keys, c, n.term) {
      h' := ReuseHist(g, h, n.id, n.term);
      HistClaims(g, h);
      MoveGrows(n.id, h, h');
      AskNode(g, h, h', n);
    } else {
      h' := h;
      MoveRefl(n.id, h);
    }
  }

  lemma MoveGrows(id: Id, h: Hist, h': Hist)
    requires Move(id, h, h')
    ensures Grows(h, h')
  {
  }

  lemma ReadIndexIgnored(g: Group, h: Hist, n: Node, m: Msg)
    requires Ready(g, h, n) && m.ReadIndex? && n.role == Leader && !TakesRead(g, n, m)
    ensures Handled(g, h, n, h, HandleReadIndex(g, n, m))
  {
    StayMoved(g, h, n);
  }

  /** The answer to a forwarded read also commits its index. */
  lemma ReadRespHandled(g: Group, h: Hist, n: Node, m: Msg)
    requires Ready(g, h, n) && n.role == Follower
    requires m.ReadIndexResp? && MsgOk(g, h, m) && m.term == n.term
    ensures Moved(g, h, n, h, MaybeCommitAt(n.(readStates := n.readStates + [ReadState(m.index, m.ctx)]), m.index, m.term))
  {
    hide HistOk, NodeOk, VoteCommit, LeadsOk;
    var n1 := n.(readStates := n.readStates + [ReadState(m.index, m.ctx)]);
    AnswerNode(g, h, n, m.ctx, m.index);
    MoveRefl(n.id, h);
    RespCommit(g, h, m);
    CommitAtMoved(g, h, n1, m.index, m.term, m.term);
    MovedTrans(g, h, n, h, n1, h, MaybeCommitAt(n1, m.index, m.term));
  }

  lemma AnswerNode(g: Group, h: Hist, n: Node, c: Ctx, index: nat)
    requires NodeOk(g, h, n) && AnswerOk(h, c, index)
    ensures NodeOk(g, h, n.(readStates := n.readStates + [ReadState(index, c)]))
  {
    hide Remembers, LogOk, Certified;
  }

  lemma RespCommit(g: Group, h: Hist, m: Msg)
    requires m.ReadIndexResp? && MsgOk(g, h, m)
    ensures VoteCommit(g, h, m.index, m.term, m.term) && m.index > 0 && m.term > 0
  {
    assert VoteCommitBy(g, h, m.index, m.term, m.term, m.term);
  }

  // ----- followers and candidates

  lemma LeaderSeenMoved(g: Group, h: Hist, n: Node, leader: Id)
    requires Ready(g, h, n) && n.role == Follower
    ensures Moved(g, h, n, h, n.(leaderId := leader))
  {
    hide HistOk, NodeOk;
    NodeFacts(g, h, n);
    SoftMove(g, h, n, n.(leaderId := leader));
  }

  lemma FollowerHandled(g: Group, h: Hist, n: Node, m: Msg) returns (h': Hist)
    requires Ready(g, h, n) && n.role == Follower && WellFormed(m)
    requires MsgOk(g, h, m) && m.to == n.id && (m.ReadIndex? || m.term == n.term)
    ensures Handled(g, h, n, h', StepFollower(g, n, m))
  {
    hide HistOk, NodeOk, HandleAppend, HandleHeartbeat, MaybeCommitAt;
    var f := n.(leaderId := m.from);
    LeaderSeenMoved(g, h, n, m.from);
    h' := h;
    if m.Append? {
      h' := AppendMsgHandled(g, h, f, m);
      HandledThen(g, h, n, h, f, h', HandleAppend(f, m));
    } else if m.Heartbeat? {
      HeartbeatHandled(g, h, f, m);
      HandledThen(g, h, n, h, f, h, HandleHeartbeat(f, m));
    } else if m.ReadIndexResp? {
      ReadRespHandled(g, h, n, m);
    } else {
      StayMoved(g, h, n);
    }
  }

  lemma CandidateHandled(g: Group, h: Hist, n: Node, m: Msg) returns (h': Hist)
    requires Ready(g, h, n) && (n.role == Candidate || n.role == PreCandidate) && WellFormed(m)
    requires MsgOk(g, h, m) && m.to == n.id
    requires m.ReadIndex? || m.term == n.term || (m.VoteResp? && m.pre && g.preVote)
    ensures Handled(g, h, n, h', StepCandidate(g, n, m))
  {
    hide HistOk, NodeOk, HandleAppend, HandleHeartbeat, HandleVoteResponse, BecomeFollower;
    h' := h;
    if m.Append? || m.Heartbeat? {
      var f := BecomeFollower(n, m.term, m.from);
      h' := FollowMove(g, h, n, m.term, m.from);
      MsgOkGrows(g, h, h', m);
      BecameFollower(n, m.term, m.from);
      if m.Append? {
        var h1 := h';
        h' := AppendMsgHandled(g, h1, f, m);
        HandledThen(g, h, n, h1, f, h', HandleAppend(f, m));
      } else {
        HeartbeatHandled(g, h', f, m);
        HandledThen(g, h, n, h', f, h', HandleHeartbeat(f, m));
      }
    } else if m.VoteResp? {
      h' := VoteResponseHandled(g, h, n, m);
    } else {
      StayMoved(g, h, n);
    }
  }

  lemma BecameFollower(n: Node, term: nat, leader: Id)
    ensures var f := BecomeFollower(n, term, leader); f.role == Follower && f.term == term && f.id == n.id
  {
  }

  lemma LeaderHandled(g: Group, h: Hist, n: Node, m: Msg, mci: nat) returns (h': Hist)
    requires Ready(g, h, n) && n.role == Leader && WellFormed(m)
    requires MsgOk(g, h, m) && m.to == n.id && (m.ReadIndex? || m.term == n.term || m.VoteResp?)
    requires m.AppendResp? ==> Committable(g, Acknowledge(n, m.from, m.index).matched, mci)
    requires !TakesRead(g, n, m)
    ensures Handled(g, h, n, h', StepLeader(g, n, m, mci))
  {
    hide HistOk, NodeOk, HandleAppendResponse, HandleHeartbeatResponse, HandleReadIndex, Acknowledge;
    h' := h;
    if m.AppendResp? {
      h' := AppendResponseMoved(g, h, n, m, mci);
    } else if m.HeartbeatResp? {
      HeartbeatResponseHandled(g, h, n, m);
    } else if m.ReadIndex? {
      ReadIndexIgnored(g, h, n, m);
    } else {
      StayMoved(g, h, n);
    }
  }

  // ----- one step

  lemma CatchUpMoved(g: Group, h: Hist, n: Node, m: Msg) returns (h': Hist)
    requires Ready(g, h, n) && !m.ReadIndex? && m.term >= n.term
    ensures Moved(g, h, n, h', CatchUp(n, m))
  {
    hide HistOk, NodeOk;
    if CatchUp(n, m) == n {
      h' := h;
      StayMoved(g, h, n);
    } else {
      h' := FollowMove(g, h, n, m.term, if m.Append? || m.Heartbeat? then m.from else NONE);
    }
  }

  /** What the arguments of a step must satisfy: the commit index comes from acknowledgements. */
  predicate MciOk(g: Group, n: Node, m: Msg, mci: nat) {
    m.AppendResp? && m.term >= n.term ==> Committable(g, Acknowledge(CatchUp(n, m), m.from, m.index).matched, mci)
  }

  lemma DispatchHandled(g: Group, h: Hist, n: Node, m: Msg, mci: nat) returns (h': Hist)
    requires Ready(g, h, n) && WellFormed(m) && MsgOk(g, h, m) && m.to == n.id
    requires m.ReadIndex? || m.term == n.term || (m.RequestVote? && m.pre) || (m.VoteResp? && m.pre && g.preVote)
    requires m.AppendResp? ==> Committable(g, Acknowledge(n, m.from, m.index).matched, mci)
    requires !TakesRead(g, n, m)
    ensures Handled(g, h, n, h', Dispatch(g, n, m, mci))
  {
    hide HistOk, NodeOk, MsgOk, StepLeader, StepFollower, StepCandidate, HandleVoteRequest, Acknowledge;
    if m.RequestVote? {
      h' := VoteRequestHandled(g, h, n, m);
    } else if n.role == Follower {
      if m.VoteResp? {
        h' := h;
        VoteRespIgnored(g, n, m);
        StayMoved(g, h, n);
      } else {
        h' := FollowerHandled(g, h, n, m);
      }
    } else if n.role == Leader {
      h' := LeaderHandled(g, h, n, m, mci);
    } else {
      h' := CandidateHandled(g, h, n, m);
    }
  }

  lemma VoteRespIgnored(g: Group, n: Node, m: Msg)
    requires m.VoteResp?
    ensures StepFollower(g, n, m) == Ok(n, {})
  {
  }

  lemma StaleHandled(g: Group, h: Hist, n: Node, m: Msg)
    requires Ready(g, h, n) && MsgOk(g, h, m) && !m.ReadIndex? && m.term < n.term
    ensures Handled(g, h, n, h, AnswerStale(g, n, m))
  {
    hide HistOk, NodeOk;
    StayMoved(g, h, n);
  }

  lemma MsgTermReal(g: Group, h: Hist, m: Msg)
    requires LeadsOk(g, h) && MsgOk(g, h, m) && !m.ReadIndex?
    ensures m.term > 0
    ensures m.VoteResp? && m.pre ==> g.preVote
  {
    if m.Append? || m.Heartbeat? {
      LeadLogOk(g, h, m.term);
    }
  }

  /** Handling any justified message keeps everything, and sends only justified messages. */
  lemma StepKeeps(g: Group, h: Hist, n: Node, m: Msg, mci: nat) returns (h': Hist)
    requires Ready(g, h, n) && WellFormed(m) && MsgOk(g, h, m) && m.to == n.id
    requires MciOk(g, n, m, mci) && !TakesRead(g, n, m)
    ensures Handled(g, h, n, h', Step(g, n, m, mci))
  {
    hide HistOk, NodeOk, MsgOk, Dispatch, AnswerStale, CatchUp, LeadsOk, TakesRead, Acknowledge, Moved;
    HistAsks(g, h);
    if m.ReadIndex? {
      h' := DispatchHandled(g, h, n, m, mci);
    } else {
      MsgTermReal(g, h, m);
      if m.term < n.term {
        h' := h;
        StaleHandled(g, h, n, m);
      } else {
        h' := CaughtUpHandled(g, h, n, m, mci);
      }
    }
  }

  lemma CaughtUpHandled(g: Group, h: Hist, n: Node, m: Msg, mci: nat) returns (h': Hist)
    requires Ready(g, h, n) && WellFormed(m) && MsgOk(g, h, m) && m.to == n.id
    requires !m.ReadIndex? && m.term >= n.term
    requires m.VoteResp? && m.pre ==> g.preVote
    requires m.AppendResp? ==> Committable(g, Acknowledge(CatchUp(n, m), m.from, m.index).matched, mci)
    ensures Handled(g, h, n, h', Dispatch(g, CatchUp(n, m), m, mci))
  {
    hide HistOk, NodeOk, MsgOk, Dispatch, Acknowledge;
    var c := CatchUp(n, m);
    var h1 := CatchUpMoved(g, h, n, m);
    MsgOkGrows(g, h, h1, m);
    h' := DispatchHandled(g, h1, c, m, mci);
    HandledThen(g, h, n, h1, c, h', Dispatch(g, c, m, mci));
  }

  // ----- a leader's own messages

  lemma LeaderMessageOk(g: Group, h: Hist, n: Node, m: Msg)
    requires LeadsOk(g, h) && NodeOk(g, h, n) && LeaderMay(g, n, m)
    ensures MsgOk(g, h, m)
  {
    hide LeadsOk, NodeOk, Certified;
    NodeFacts(g, h, n);
    NodeLeader(g, h, n);
    LeadLogOk(g, h, n.term);
    if m.Append? {
      LeaderAppendMsgOk(g, h, n, m);
    } else {
      LeaderHeartbeatOk(g, h, n, m);
    }
  }

  lemma LeaderAppendMsgOk(g: Group, h: Hist, n: Node, m: Msg)
    requires LogOk(h, n.log) && LeadsOk(g, h) && LeaderOk(g, h, n) && LeaderMay(g, n, m) && m.Append?
    requires Certified(g, h, n.log, n.committed, n.term)
    ensures MsgOk(g, h, m)
  {
    hide LeadsOk, Certified;
    forall k | 0 <= k < |m.entries|
      ensures m.entries[k].index == m.index + 1 + k && m.entries[k].term > 0
    {
      assert m.entries[k] == n.log[m.index..][k] == n.log[m.index + k];
      assert EntryOk(h, n.log, m.index + k);
      TermsPositive(g, h, n.log, m.index + k + 1);
    }
  }

  lemma LeaderHeartbeatOk(g: Group, h: Hist, n: Node, m: Msg)
    requires LeaderOk(g, h, n) && ReadsFit(g, h, n) && LeaderMay(g, n, m) && m.Heartbeat?
    requires Certified(g, h, n.log, n.committed, n.term)
    ensures MsgOk(g, h, m)
  {
    AppendCertified(g, h, n.log, n.log, |n.log|, n.committed, n.term);
    CertifiedLess(g, h, n.log, n.committed, m.commit, n.term);
    if m.ctx != [] {
      assert WaitingOk(g, h, n, m.ctx);
    }
  }

  lemma CertifiedLess(g: Group, h: Hist, log: seq<Entry>, c: nat, c': nat, lim: nat)
    requires Certified(g, h, log, c, lim) && c' <= c
    ensures Certified(g, h, log, c', lim)
  {
    if c' > 0 {
      var t :| CertifiedBy(g, h, log, c, lim, t);
      TakeLess(log, h.lead[t].log, c, c');
      assert CertifiedBy(g, h, log, c', lim, t);
    }
  }
}
