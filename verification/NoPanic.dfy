/** Which `fatal!`, `panic!` and `assert!` of a node can fire in a run. */
module NoPanic {
  import opened Types
  import opened Quorum
  import opened ReadQueue
  import opened RaftNode
  import opened History
  import opened Growth
  import opened Invariant
  import opened Moves
  import opened LogMoves
  import opened Handlers
  import opened AppendHandled
  import opened StepHandled
  import opened Cluster

  // ----- a candidate that asked for votes has persisted its log

  ghost predicate RequestFrom(m: Msg, id: Id, term: nat) {
    m.RequestVote? && !m.pre && m.from == id && m.term == term
  }

  ghost predicate Asked(s: State, id: Id, term: nat) {
    exists m :: m in s.live && RequestFrom(m, id, term)
  }

  ghost predicate AskersPersisted(s: State) {
    forall id :: id in s.nodes && s.nodes[id].role == Candidate && Asked(s, id, s.nodes[id].term) ==>
      s.nodes[id].persisted == |s.nodes[id].log|
  }

  ghost predicate ResponsesAsked(s: State) {
    forall m :: m in s.sent && m.VoteResp? && !m.pre ==> Asked(s, m.to, m.term)
  }

  /** A node is a candidate after a step only if it starts a later term, or was one already and kept
      its log. */
  predicate CandidateStays(n: Node, n': Node) {
    n'.role == Candidate ==>
      || n'.term > n.term
      || (n'.term == n.term && n.role == Candidate && n'.log == n.log && n'.persisted >= n.persisted)
  }

  lemma CampaignCandidate(g: Group, n: Node)
    ensures Campaign(g, n).Ok? ==> CandidateStays(n, Campaign(g, n).node)
  {
  }

  lemma HupCandidate(g: Group, n: Node, pre: bool)
    ensures Hup(g, n, pre).Ok? ==> CandidateStays(n, Hup(g, n, pre).node)
  {
    hide JointVote, Campaign;
    CampaignCandidate(g, n);
    CampaignCandidate(g, WithVote(BecomePreCandidate(n), n.id, true));
    CampaignIsCandidate(g, WithVote(BecomePreCandidate(n), n.id, true));
  }

  lemma CampaignIsCandidate(g: Group, n: Node)
    ensures Campaign(g, n).Ok? ==> Campaign(g, n).node.term == n.term + 1
  {
  }

  lemma VoteResponseCandidate(g: Group, n: Node, m: Msg)
    requires m.VoteResp?
    ensures HandleVoteResponse(g, n, m).Ok? ==> CandidateStays(n, HandleVoteResponse(g, n, m).node)
  {
    hide JointVote, Campaign;
    var c := WithVote(n, m.from, !m.reject);
    CampaignCandidate(g, c);
    CampaignIsCandidate(g, c);
  }

  lemma HeartbeatResponseRole(g: Group, n: Node, m: Msg)
    requires m.HeartbeatResp? && HandleHeartbeatResponse(g, n, m).Ok?
    ensures var n' := HandleHeartbeatResponse(g, n, m).node;
            n'.role == n.role && n'.term == n.term && n'.log == n.log && n'.persisted == n.persisted
  {
    hide JointVote, Released, Advance, CanAdvance;
    var n1 := n.(waiting := RecvAck(n.waiting, m.from, m.ctx));
    if CanAdvance(n1.waiting, m.ctx) {
      ReleasedPending(n1.waiting, m.ctx);
      RespondAllRole(n1.(waiting := Advance(n1.waiting, m.ctx)), Released(n1.waiting, m.ctx), n1.waiting.pending);
    }
  }

  lemma RespondAllRole(n: Node, released: seq<Ctx>, pending: map<Ctx, ReadStatus>)
    requires forall c :: c in released ==> c in pending
    ensures RespondAll(n, released, pending).0 == n.(readStates := RespondAll(n, released, pending).0.readStates)
    ensures forall m :: m in RespondAll(n, released, pending).1 ==> m.ReadIndexResp?
    decreases |released|
  {
    if released != [] {
      var st := pending[released[0]];
      RespondAllRole(Respond(n, st.from, released[0], st.index).0, released[1..], pending);
    }
  }

  lemma AppendRole(n: Node, m: Msg)
    requires m.Append? && Follows(m.entries, m.index) && HandleAppend(n, m).Ok?
    ensures HandleAppend(n, m).node.role == n.role
  {
  }

  lemma DispatchCandidate(g: Group, n: Node, m: Msg, mci: nat)
    requires WellFormed(m)
    ensures Dispatch(g, n, m, mci).Ok? ==> CandidateStays(n, Dispatch(g, n, m, mci).node)
  {
    hide HandleAppend, HandleVoteResponse, HandleHeartbeatResponse;
    if Dispatch(g, n, m, mci).Ok? {
      if m.Append? {
        if n.role == Follower {
          AppendRole(n.(leaderId := m.from), m);
        } else if n.role != Leader {
          AppendRole(BecomeFollower(n, m.term, m.from), m);
        }
      } else if m.VoteResp? && (n.role == Candidate || n.role == PreCandidate) {
        VoteResponseCandidate(g, n, m);
      } else if m.HeartbeatResp? && n.role == Leader {
        HeartbeatResponseRole(g, n, m);
      }
    }
  }

  lemma StepCandidateStays(g: Group, n: Node, m: Msg, mci: nat)
    requires WellFormed(m)
    ensures Step(g, n, m, mci).Ok? ==> CandidateStays(n, Step(g, n, m, mci).node)
  {
    hide Dispatch;
    DispatchCandidate(g, n, m, mci);
    if !m.ReadIndex? {
      DispatchCandidate(g, CatchUp(n, m), m, mci);
    }
  }

  /** Only a vote request is answered with a vote, and in its own term. */
  ghost predicate AnswersRequest(m: Msg, out: set<Msg>) {
    forall o :: o in out && o.VoteResp? && !o.pre ==> RequestFrom(m, o.to, o.term)
  }

  lemma CampaignSendsRequests(g: Group, n: Node)
    ensures Campaign(g, n).Ok? ==> forall o :: o in Campaign(g, n).out ==> o.RequestVote?
  {
  }

  lemma DispatchAnswers(g: Group, n: Node, m: Msg, mci: nat)
    requires WellFormed(m) && (m.RequestVote? && !m.pre ==> m.term == n.term)
    ensures Dispatch(g, n, m, mci).Ok? ==> AnswersRequest(m, Dispatch(g, n, m, mci).out)
  {
    hide JointVote, Campaign, Released, Advance, CanAdvance, RespondAll, BecomeLeader, AppendFrom, CommitTo;
    if m.VoteResp? {
      CampaignSendsRequests(g, WithVote(n, m.from, !m.reject));
      BecomeLeaderSilent(WithVote(n, m.from, !m.reject));
    } else if m.HeartbeatResp? {
      var n1 := n.(waiting := RecvAck(n.waiting, m.from, m.ctx));
      if CanAdvance(n1.waiting, m.ctx) {
        ReleasedPending(n1.waiting, m.ctx);
        RespondAllRole(n1.(waiting := Advance(n1.waiting, m.ctx)), Released(n1.waiting, m.ctx), n1.waiting.pending);
      }
    }
  }

  lemma BecomeLeaderSilent(n: Node)
    ensures BecomeLeader(n).Ok? ==> BecomeLeader(n).out == {}
  {
  }

  lemma StepAnswers(g: Group, n: Node, m: Msg, mci: nat)
    requires WellFormed(m) && (m.ReadIndex? || m.term > 0)
    ensures Step(g, n, m, mci).Ok? ==> AnswersRequest(m, Step(g, n, m, mci).out)
  {
    hide Dispatch;
    if m.ReadIndex? {
      DispatchAnswers(g, n, m, mci);
    } else if m.term >= n.term {
      DispatchAnswers(g, CatchUp(n, m), m, mci);
    }
  }

  lemma HupSendsRequests(g: Group, n: Node, pre: bool)
    ensures Hup(g, n, pre).Ok? ==> forall o :: o in Hup(g, n, pre).out ==> o.RequestVote?
  {
    hide JointVote, Campaign;
    CampaignSendsRequests(g, n);
    CampaignSendsRequests(g, WithVote(BecomePreCandidate(n), n.id, true));
  }

  /** A vote request of a term that its sender has not reached cannot exist. */
  lemma NoFutureRequest(g: Group, h: Hist, s: State, id: Id, term: nat)
    requires Inv(g, h, s) && id in s.nodes && term > s.nodes[id].term
    ensures !Asked(s, id, term)
  {
    hide NodeOk;
    if Asked(s, id, term) {
      var m :| m in s.live && RequestFrom(m, id, term);
      assert MsgOk(g, h, m);
      assert RunOk(g, h, term, id);
      NodeFacts(g, h, s.nodes[id]);
    }
  }

  lemma PersistedWithinLog(g: Group, h: Hist, s: State, id: Id)
    requires Inv(g, h, s) && id in s.nodes
    ensures s.nodes[id].persisted <= |s.nodes[id].log|
  {
    hide HistOk, NodeOk, MsgOk;
    NodeFacts(g, h, s.nodes[id]);
  }

  ghost predicate Prepared(s: State) {
    AskersPersisted(s) && ResponsesAsked(s)
  }

  /** A change of one node, with new messages, keeps both properties. */
  lemma NodeChangePrepared(g: Group, h: Hist, s: State, h': Hist, s': State, id: Id)
    requires Inv(g, h, s) && Inv(g, h', s') && Prepared(s) && id in s.nodes && id in s'.nodes
    requires s'.nodes == s.nodes[id := s'.nodes[id]] && s'.live == s.live && s.sent <= s'.sent
    requires CandidateStays(s.nodes[id], s'.nodes[id])
    requires forall m :: m in s'.sent && m !in s.sent && m.VoteResp? && !m.pre ==> Asked(s, m.to, m.term)
    ensures Prepared(s')
  {
    hide Inv;
    PersistedWithinLog(g, h', s', id);
    forall v | v in s'.nodes && s'.nodes[v].role == Candidate && Asked(s', v, s'.nodes[v].term)
      ensures s'.nodes[v].persisted == |s'.nodes[v].log|
    {
      assert Asked(s, v, s'.nodes[v].term);
      if v == id && s'.nodes[id].term > s.nodes[id].term {
        NoFutureRequest(g, h, s, id, s'.nodes[id].term);
      }
    }
    forall m | m in s'.sent && m.VoteResp? && !m.pre
      ensures Asked(s', m.to, m.term)
    {
      assert Asked(s, m.to, m.term);
    }
  }

  lemma LiveWellFormed(g: Group, h: Hist, s: State, m: Msg)
    requires Inv(g, h, s) && m in s.live
    ensures WellFormed(m) && (m.ReadIndex? || m.term > 0) && MsgOk(g, h, m)
  {
    hide NodeOk;
    assert MsgOk(g, h, m);
    if m.Append? || m.Heartbeat? {
      LeadLogOk(g, h, m.term);
    }
  }

  lemma HandlesPrepared(g: Group, h: Hist, s: State, h': Hist, s': State, m: Msg, mci: nat)
    requires Inv(g, h, s) && Inv(g, h', s') && Prepared(s)
    requires Handles(g, s, m, mci, s') && (m.ReadIndex? || (m.term > 0 && m in s.live))
    ensures Prepared(s')
  {
    hide Inv, Step, TakesRead, MciOk;
    var n := s.nodes[m.to];
    StepCandidateStays(g, n, m, mci);
    StepAnswers(g, n, m, mci);
    var out := Step(g, n, m, mci).out;
    forall o | o in s'.sent && o !in s.sent && o.VoteResp? && !o.pre
      ensures Asked(s, o.to, o.term)
    {
      assert o in out;
      assert RequestFrom(m, o.to, o.term);
    }
    NodeChangePrepared(g, h, s, h', s', m.to);
  }

  lemma ReleasePrepared(s: State, s': State, id: Id, msgs: set<Msg>)
    requires Prepared(s) && id in s.nodes
    requires forall m :: m in msgs ==> m.from == id && MayLeave(s.nodes[id], m)
    requires s' == s.(live := s.live + msgs)
    ensures Prepared(s')
  {
    forall v | v in s'.nodes && s'.nodes[v].role == Candidate && Asked(s', v, s'.nodes[v].term)
      ensures s'.nodes[v].persisted == |s'.nodes[v].log|
    {
      var m :| m in s'.live && RequestFrom(m, v, s'.nodes[v].term);
      if m in s.live {
        assert Asked(s, v, s.nodes[v].term);
      }
    }
    forall m | m in s'.sent && m.VoteResp? && !m.pre
      ensures Asked(s', m.to, m.term)
    {
      var q :| q in s.live && RequestFrom(q, m.to, m.term);
      assert q in s'.live;
    }
  }

  lemma SendPrepared(s: State, s': State, m: Msg)
    requires Prepared(s) && s' == s.(sent := s.sent + {m}) && (m.Append? || m.Heartbeat?)
    ensures Prepared(s')
  {
    forall v, t ensures Asked(s', v, t) == Asked(s, v, t) {}
  }

  lemma NextPrepared(g: Group, h: Hist, s: State, e: Event, h': Hist, s': State)
    requires Inv(g, h, s) && Inv(g, h', s') && Next(g, s, e, s') && Prepared(s)
    ensures Prepared(s')
  {
    hide Inv, Handles, Hup, Prepared, PersistTo;
    match e
    case Deliver(m, mci) =>
      LiveWellFormed(g, h, s, m);
      HandlesPrepared(g, h, s, h', s', m, mci);
    case AskRead(id, ctx) =>
      HandlesPrepared(g, h, s, h', s', ReadIndex(NONE, id, ctx), 0);
    case Timeout(id, pre) =>
      HupCandidate(g, s.nodes[id], pre);
      HupSendsRequests(g, s.nodes[id], pre);
      NodeChangePrepared(g, h, s, h', s', id);
    case Propose(id, bodies) =>
      NodeChangePrepared(g, h, s, h', s', id);
    case LeaderSends(id, m) =>
      SendPrepared(s, s', m);
    case Persist(id, index, mci) =>
      PersistCandidate(s.nodes[id], index, mci);
      NodeChangePrepared(g, h, s, h', s', id);
    case Release(id, msgs) =>
      ReleasePrepared(s, s', id, msgs);
    case StepDown(id) =>
      NodeChangePrepared(g, h, s, h', s', id);
  }

  lemma PersistCandidate(n: Node, index: nat, mci: nat)
    ensures CandidateStays(n, PersistTo(n, index, mci))
  {
  }

  lemma {:induction false} RunPrepared(g: Group, run: seq<State>, events: seq<Event>, hs: seq<Hist>, j: nat)
    requires IsRun(g, run, events) && Explains(g, hs, run) && j < |run|
    ensures Prepared(run[j])
    decreases j
  {
    hide Inv, Next, Grows;
    if j == 0 {
      assert Init(g, run[0]);
    } else {
      RunPrepared(g, run, events, hs, j - 1);
      NextPrepared(g, hs[j - 1], run[j - 1], events[j - 1], hs[j], run[j]);
    }
  }

  // ----- the individual failures

  /** An append is only looked at from the commit index on, so it never conflicts with what is
      committed. */
  lemma AppendFromSucceeds(g: Group, h: Hist, n: Node, m: Msg)
    requires Ready(g, h, n)
    requires m.Append? && Anchored(h, n.term, n.log, m.index, m.entries) && m.index >= n.committed
    ensures AppendFrom(n, m.index, m.entries).Ok?
  {
    hide HistOk, NodeOk, LogOk;
    NodeFacts(g, h, n);
    FindConflictFirst(n.log, m.entries, m.index);
    var ci := FindConflict(n.log, m.entries);
    if ci != 0 {
      TermsAgreeLogsAgree(h, n.term, n.log, m.index, m.entries, ci - m.index - 1);
    }
  }

  lemma HandleAppendSucceeds(g: Group, h: Hist, n: Node, m: Msg)
    requires Ready(g, h, n) && n.role == Follower
    requires m.Append? && AppendOk(g, h, m) && m.term == n.term && m.to == n.id
    ensures HandleAppend(n, m).Ok?
  {
    hide HistOk, NodeOk, AppendFrom, LeadsOk, Anchored;
    HistLeads(g, h);
    if m.index < n.committed {
    } else if TermAt(n.log, m.index) != m.logTerm {
      ConflictByTermFound(n.log, Min(m.index, |n.log|), m.logTerm);
    } else {
      AnchorMatches(g, h, n, m);
      AppendFromSucceeds(g, h, n, m);
      var h' := AcceptHandled(g, h, n, m);
    }
  }

  lemma SoleVoteRecorded(n: Node, id: Id)
    ensures WithVote(BecomeCandidate(n), id, true).votes == map[id := true]
  {
  }

  /** A campaign fails exactly when the node's own vote decides and its log is not persisted. */
  lemma CampaignFailsExactly(g: Group, n: Node)
    ensures Campaign(g, n).Panic? <==> WinsAlone(g, n.id) && n.persisted != |n.log|
  {
    hide JointVote;
    SoleVoteRecorded(n, n.id);
  }

  /** A timeout fails exactly when a node that does not lead, and whose own vote decides, has not
      persisted its log: the assertion in `become_leader`. */
  lemma TimeoutFailsExactly(g: Group, n: Node, pre: bool)
    ensures Hup(g, n, pre).Panic? <==> n.role != Leader && WinsAlone(g, n.id) && n.persisted != |n.log|
  {
    hide JointVote, Campaign;
    var c := WithVote(BecomePreCandidate(n), n.id, true);
    assert c.votes == map[n.id := true];
    CampaignFailsExactly(g, n);
    CampaignAfterPre(g, n);
  }

  lemma PollSucceeds(g: Group, h: Hist, n: Node, from: Id, vote: bool)
    requires NodeOk(g, h, n) && (n.role == Candidate || n.role == PreCandidate)
    requires n.role == Candidate ==> n.persisted == |n.log|
    ensures Poll(g, n, from, vote).Ok?
  {
    hide NodeOk, JointVote, Campaign;
    NodeFacts(g, h, n);
    CampaignFailsExactly(g, WithVote(n, from, vote));
  }

  /** The one delivery that fails: a node that is still in term zero gets a pre-vote request from a node
      with an empty log and a lower priority. It refuses, and its answer would carry no term. */
  predicate RefusedAtTermZero(n: Node, m: Msg) {
    m.RequestVote? && m.pre && n.term == 0 && m.lastIndex == 0 && m.priority < n.priority
  }

  /** A node in term zero has written nothing, so only its priority can make it refuse. */
  lemma TermZeroRefuses(g: Group, h: Hist, n: Node, m: Msg)
    requires LeadsOk(g, h) && NodeOk(g, h, n) && n.term == 0
    requires m.RequestVote? && m.pre && m.term > 0
    ensures Grants(n, m) <==> m.lastIndex > 0 || n.priority <= m.priority
  {
    hide LeadsOk, NodeOk;
    NodeFacts(g, h, n);
    if n.log != [] {
      TermsPositive(g, h, n.log, 1);
    }
  }

  lemma DispatchFailsExactly(g: Group, h: Hist, n: Node, m: Msg, mci: nat)
    requires Ready(g, h, n) && WellFormed(m) && MsgOk(g, h, m) && m.to == n.id
    requires m.ReadIndex? || m.term == n.term || (m.RequestVote? && m.pre) || (m.VoteResp? && m.pre && g.preVote)
    requires m.VoteResp? && !m.pre && n.role == Candidate ==> n.persisted == |n.log|
    requires m.RequestVote? && !m.pre ==> n.term > 0
    ensures Dispatch(g, n, m, mci).Panic? <==> RefusedAtTermZero(n, m)
  {
    hide HistOk, NodeOk, MsgOk, HandleAppend, HandleHeartbeat, Poll, HandleHeartbeatResponse, HandleReadIndex, Grants;
    if m.Append? || m.Heartbeat? {
      if n.role != Leader {
        var f := if n.role == Follower then n.(leaderId := m.from) else BecomeFollower(n, m.term, m.from);
        FollowerReady(g, h, n, f, m.from);
        LeaderMsgSucceeds(g, h, f, m);
      }
    } else if m.VoteResp? && (n.role == Candidate || n.role == PreCandidate) {
      VoteResponseSucceeds(g, h, n, m);
    } else if m.HeartbeatResp? || m.ReadIndex? {
      NodeFacts(g, h, n);
      ReadsNeverFail(g, n, m);
    } else if m.RequestVote? && n.term == 0 {
      HistLeads(g, h);
      PreVoteTerm(g, h, m);
      TermZeroRefuses(g, h, n, m);
    }
  }

  lemma PreVoteTerm(g: Group, h: Hist, m: Msg)
    requires m.RequestVote? && MsgOk(g, h, m)
    ensures m.term > 0
  {
  }

  /** Queue and map of the pending reads agree, so the check in `advance` does not fail. */
  lemma ReadsNeverFail(g: Group, n: Node, m: Msg)
    requires ReadsOk(n.waiting)
    ensures m.HeartbeatResp? ==> HandleHeartbeatResponse(g, n, m).Ok?
    ensures m.ReadIndex? ==> HandleReadIndex(g, n, m).Ok?
  {
    hide JointVote, Released, Advance, RespondAll, CanAdvance;
    if m.HeartbeatResp? {
      OkCanAdvance(RecvAck(n.waiting, m.from, m.ctx), m.ctx);
    }
  }

  lemma FollowerReady(g: Group, h: Hist, n: Node, f: Node, leader: Id)
    requires Ready(g, h, n) && n.role != Leader
    requires (f == n.(leaderId := leader) && n.role == Follower) || f == BecomeFollower(n, n.term, leader)
    ensures Ready(g, h, f) && f.role == Follower && f.term == n.term && f.id == n.id
  {
    hide HistOk, NodeOk;
    NodeFacts(g, h, n);
    SoftMove(g, h, n, f);
  }

  lemma LeaderMsgSucceeds(g: Group, h: Hist, f: Node, m: Msg)
    requires Ready(g, h, f) && f.role == Follower && WellFormed(m) && MsgOk(g, h, m) && m.to == f.id
    requires (m.Append? || m.Heartbeat?) && m.term == f.term
    ensures if m.Append? then HandleAppend(f, m).Ok? else HandleHeartbeat(f, m).Ok?
  {
    hide HistOk, NodeOk, HandleAppend, HandleHeartbeat;
    if m.Append? {
      HandleAppendSucceeds(g, h, f, m);
    } else {
      HeartbeatHandled(g, h, f, m);
    }
  }

  lemma VoteResponseSucceeds(g: Group, h: Hist, n: Node, m: Msg)
    requires NodeOk(g, h, n) && (n.role == Candidate || n.role == PreCandidate)
    requires m.VoteResp? && (!m.pre && n.role == Candidate ==> n.persisted == |n.log|)
    ensures HandleVoteResponse(g, n, m).Ok?
  {
    hide NodeOk, Poll;
    if (n.role == PreCandidate && m.pre) || (n.role == Candidate && !m.pre) {
      PollSucceeds(g, h, n, m.from, !m.reject);
    }
  }

  lemma CatchUpCandidate(n: Node, m: Msg)
    requires !m.ReadIndex?
    ensures CatchUp(n, m) == n || CatchUp(n, m).role == Follower
    ensures m.term >= n.term && CatchUp(n, m) != n ==> CatchUp(n, m).term == m.term
    ensures m.term >= n.term && m.RequestVote? && !m.pre ==> CatchUp(n, m).term == m.term
  {
  }

  lemma CandidatePersisted(s: State, m: Msg)
    requires Prepared(s) && m in s.sent && m.VoteResp? && !m.pre && m.to in s.nodes
    requires s.nodes[m.to].role == Candidate && s.nodes[m.to].term == m.term
    ensures s.nodes[m.to].persisted == |s.nodes[m.to].log|
  {
    assert Asked(s, m.to, m.term);
  }

  /** In every reachable state of the cluster, delivering a message fails in exactly one case. In
      particular no append conflicts with a committed entry, no commit index exceeds a log, no read is
      missing when it is released, and a node that wins by the votes of others has persisted its log. */
  lemma DeliveryFailsExactly(g: Group, run: seq<State>, events: seq<Event>, j: nat, m: Msg, mci: nat)
    requires GroupOk(g) && IsRun(g, run, events) && j < |run|
    requires m in run[j].live && m.to in run[j].nodes
    ensures WellFormed(m)
    ensures Step(g, run[j].nodes[m.to], m, mci).Panic? <==> RefusedAtTermZero(run[j].nodes[m.to], m)
  {
    hide Inv, Next, Prepared, Dispatch, AnswerStale, MsgOk, HistOk, NodeOk, Grants, CatchUp;
    var hs := RunExplained(g, run, events);
    RunPrepared(g, run, events, hs, j);
    LiveWellFormed(g, hs[j], run[j], m);
    DeliveryFails(g, hs[j], run[j], m, mci);
  }

  lemma DeliveryFails(g: Group, h: Hist, s: State, m: Msg, mci: nat)
    requires Inv(g, h, s) && Prepared(s) && m in s.live && m.to in s.nodes
    requires WellFormed(m) && (m.ReadIndex? || m.term > 0) && MsgOk(g, h, m)
    ensures Step(g, s.nodes[m.to], m, mci).Panic? <==> RefusedAtTermZero(s.nodes[m.to], m)
  {
    hide HistOk, NodeOk, Dispatch, MsgOk, Prepared, Grants, CatchUp;
    var n := s.nodes[m.to];
    ReadyNode(g, h, s, m.to);
    if m.VoteResp? && !m.pre && n.role == Candidate && n.term == m.term {
      CandidatePersisted(s, m);
    }
    if m.ReadIndex? {
      DispatchFailsExactly(g, h, n, m, mci);
    } else if m.term >= n.term {
      CaughtUpFails(g, h, n, m, mci);
    }
  }

  lemma CaughtUpFails(g: Group, h: Hist, n: Node, m: Msg, mci: nat)
    requires Ready(g, h, n) && WellFormed(m) && MsgOk(g, h, m) && m.to == n.id
    requires !m.ReadIndex? && m.term >= n.term && m.term > 0
    requires m.VoteResp? && !m.pre && n.role == Candidate && n.term == m.term ==> n.persisted == |n.log|
    ensures Dispatch(g, CatchUp(n, m), m, mci).Panic? <==> RefusedAtTermZero(n, m)
  {
    hide HistOk, NodeOk, Dispatch, MsgOk, Grants;
    var h1 := CatchUpMoved(g, h, n, m);
    MsgOkGrows(g, h, h1, m);
    CatchUpCandidate(n, m);
    PreVotesConfigured(g, h, m);
    DispatchFailsExactly(g, h1, CatchUp(n, m), m, mci);
  }

  lemma PreVotesConfigured(g: Group, h: Hist, m: Msg)
    requires MsgOk(g, h, m)
    ensures m.VoteResp? && m.pre ==> g.preVote
  {
  }

  // ----- priorities

  /** A node keeps its priority, and its vote requests carry it. */
  ghost predicate Speaks(n: Node, r: Outcome) {
    r.Ok? ==>
      && r.node.id == n.id && r.node.priority == n.priority
      && forall o :: o in r.out && o.RequestVote? ==> o.from == n.id && o.priority == n.priority
  }

  lemma CampaignSpeaks(g: Group, n: Node)
    ensures Speaks(n, Campaign(g, n))
  {
  }

  lemma HupSpeaks(g: Group, n: Node, pre: bool)
    ensures Speaks(n, Hup(g, n, pre))
  {
    hide JointVote, Campaign;
    CampaignSpeaks(g, n);
    CampaignSpeaks(g, WithVote(BecomePreCandidate(n), n.id, true));
  }

  lemma VoteResponseSpeaks(g: Group, n: Node, m: Msg)
    requires m.VoteResp?
    ensures Speaks(n, HandleVoteResponse(g, n, m))
  {
    hide JointVote, Campaign;
    CampaignSpeaks(g, WithVote(n, m.from, !m.reject));
  }

  lemma AppendSpeaks(n: Node, m: Msg)
    requires m.Append? && Follows(m.entries, m.index)
    ensures Speaks(n, HandleAppend(n, m))
  {
    hide FindConflict, FindConflictByTerm, Follows;
  }

  lemma HeartbeatResponseSpeaks(g: Group, n: Node, m: Msg)
    requires m.HeartbeatResp?
    ensures Speaks(n, HandleHeartbeatResponse(g, n, m))
  {
    hide JointVote, Released, Advance, CanAdvance;
    var n1 := n.(waiting := RecvAck(n.waiting, m.from, m.ctx));
    if CanAdvance(n1.waiting, m.ctx) {
      ReleasedPending(n1.waiting, m.ctx);
      RespondAllRole(n1.(waiting := Advance(n1.waiting, m.ctx)), Released(n1.waiting, m.ctx), n1.waiting.pending);
    }
  }

  lemma DispatchSpeaks(g: Group, n: Node, m: Msg, mci: nat)
    requires WellFormed(m)
    ensures Speaks(n, Dispatch(g, n, m, mci))
  {
    hide HandleAppend, HandleVoteResponse, HandleHeartbeatResponse, Grants;
    if m.Append? {
      AppendSpeaks(n.(leaderId := m.from), m);
      AppendSpeaks(BecomeFollower(n, m.term, m.from), m);
    } else if m.VoteResp? {
      VoteResponseSpeaks(g, n, m);
    } else if m.HeartbeatResp? {
      HeartbeatResponseSpeaks(g, n, m);
    }
  }

  lemma StepSpeaks(g: Group, n: Node, m: Msg, mci: nat)
    requires WellFormed(m)
    ensures Speaks(n, Step(g, n, m, mci))
  {
    hide Dispatch;
    DispatchSpeaks(g, n, m, mci);
    if !m.ReadIndex? {
      DispatchSpeaks(g, CatchUp(n, m), m, mci);
    }
  }

  ghost predicate PrioritiesSpoken(s: State) {
    forall m :: m in s.sent && m.RequestVote? ==> m.from in s.nodes && m.priority == s.nodes[m.from].priority
  }

  lemma NextSpoken(g: Group, s: State, e: Event, s': State)
    requires Next(g, s, e, s') && PrioritiesSpoken(s) && (forall id :: id in s.nodes ==> s.nodes[id].id == id)
    ensures PrioritiesSpoken(s')
  {
    hide Step, Hup, PersistTo, TakesRead, MciOk, Acknowledge;
    match e
    case Deliver(m, mci) => StepSpeaks(g, s.nodes[m.to], m, mci);
    case AskRead(id, ctx) => StepSpeaks(g, s.nodes[id], ReadIndex(NONE, id, ctx), 0);
    case Timeout(id, pre) => HupSpeaks(g, s.nodes[id], pre);
    case Persist(id, index, mci) => PersistSpeaks(s.nodes[id], index, mci);
    case _ =>
  }

  lemma PersistSpeaks(n: Node, index: nat, mci: nat)
    ensures PersistTo(n, index, mci).priority == n.priority
  {
  }

  lemma {:induction false} RunSpoken(g: Group, run: seq<State>, events: seq<Event>, hs: seq<Hist>, j: nat)
    requires IsRun(g, run, events) && Explains(g, hs, run) && j < |run|
    ensures PrioritiesSpoken(run[j])
    decreases j
  {
    hide Next, Grows, Inv, PrioritiesSpoken;
    if j == 0 {
      NothingSpoken(g, run[0]);
    } else {
      RunSpoken(g, run, events, hs, j - 1);
      InvIds(g, hs[j - 1], run[j - 1]);
      NextSpoken(g, run[j - 1], events[j - 1], run[j]);
    }
  }

  lemma NothingSpoken(g: Group, s: State)
    requires Init(g, s)
    ensures PrioritiesSpoken(s)
  {
  }

  lemma InvIds(g: Group, h: Hist, s: State)
    requires Inv(g, h, s)
    ensures forall id :: id in s.nodes ==> s.nodes[id].id == id
  {
    hide NodeOk, HistOk, MsgOk;
  }

  /** The failing delivery in terms of the configured priorities: it takes a sender with a lower priority
      than the receiver's, so with equal priorities no delivery ever fails. */
  lemma DeliveryFailsByPriority(g: Group, run: seq<State>, events: seq<Event>, j: nat, m: Msg, mci: nat)
    requires GroupOk(g) && IsRun(g, run, events) && j < |run|
    requires m in run[j].live && m.to in run[j].nodes
    ensures WellFormed(m)
    ensures Step(g, run[j].nodes[m.to], m, mci).Panic? <==>
            && m.RequestVote? && m.pre && m.lastIndex == 0
            && run[j].nodes[m.to].term == 0
            && m.from in run[j].nodes && run[j].nodes[m.from].priority < run[j].nodes[m.to].priority
  {
    hide Inv, Next, Step, IsRun;
    var hs := RunExplained(g, run, events);
    RunSpoken(g, run, events, hs, j);
    LiveSent(g, hs[j], run[j]);
    DeliveryFailsExactly(g, run, events, j, m, mci);
  }

  lemma LiveSent(g: Group, h: Hist, s: State)
    requires Inv(g, h, s)
    ensures s.live <= s.sent
  {
    hide NodeOk, HistOk, MsgOk;
  }
}
