/** The safety properties of whole runs. */
module Safety {
  import opened Types
  import opened Quorum
  import opened ReadQueue
  import opened RaftNode
  import opened History
  import opened Growth
  import opened Invariant
  import opened Moves
  import opened ReadMoves
  import opened Cluster

  // ----- election safety

  lemma LeaderRecorded(g: Group, h: Hist, s: State, id: Id)
    requires Inv(g, h, s) && id in s.nodes && s.nodes[id].role == Leader
    ensures var n := s.nodes[id];
            n.term in h.lead && h.lead[n.term].id == id && h.lead[n.term].log == n.log
  {
    hide HistOk, NodeOk, MsgOk;
    NodeFacts(g, h, s.nodes[id]);
  }

  lemma LeadPersists(h: Hist, h': Hist, t: nat)
    requires Grows(h, h') && t in h.lead
    ensures t in h'.lead && h'.lead[t].id == h.lead[t].id && h.lead[t].log <= h'.lead[t].log
  {
    assert LeadGrowsAt(h, h', t);
  }

  /** At most one node is ever leader in a term, over the whole run. */
  lemma ElectionSafety(g: Group, run: seq<State>, events: seq<Event>, i: nat, j: nat, a: Id, b: Id)
    requires GroupOk(g) && IsRun(g, run, events)
    requires i <= j < |run|
    requires a in run[i].nodes && run[i].nodes[a].role == Leader
    requires b in run[j].nodes && run[j].nodes[b].role == Leader
    requires run[i].nodes[a].term == run[j].nodes[b].term
    ensures a == b
    ensures run[i].nodes[a].log <= run[j].nodes[b].log
  {
    hide Inv, Grows, Next;
    var hs := RunExplained(g, run, events);
    LeaderRecorded(g, hs[i], run[i], a);
    LeaderRecorded(g, hs[j], run[j], b);
    LeadPersists(hs[i], hs[j], run[i].nodes[a].term);
  }

  // ----- log matching

  lemma NodeLogOk(g: Group, h: Hist, s: State, id: Id)
    requires Inv(g, h, s) && id in s.nodes
    ensures LogOk(h, s.nodes[id].log)
  {
    hide HistOk, NodeOk, MsgOk, LogOk;
    NodeFacts(g, h, s.nodes[id]);
  }

  /** Logs with entries of the same index and term are identical up to that index, also at
      different times of the run. */
  lemma LogMatchingInRun(g: Group, run: seq<State>, events: seq<Event>, i: nat, j: nat, a: Id, b: Id, k: nat)
    requires GroupOk(g) && IsRun(g, run, events)
    requires i <= j < |run|
    requires a in run[i].nodes && b in run[j].nodes
    requires 0 < k <= |run[i].nodes[a].log| && k <= |run[j].nodes[b].log|
    requires run[i].nodes[a].log[k - 1].term == run[j].nodes[b].log[k - 1].term
    ensures run[i].nodes[a].log[..k] == run[j].nodes[b].log[..k]
  {
    hide Inv, LogOk, Next;
    var hs := RunExplained(g, run, events);
    NodeLogOk(g, hs[i], run[i], a);
    NodeLogOk(g, hs[j], run[j], b);
    GrowsLeads(hs[i], hs[j]);
    LogOkGrows(hs[i], hs[j], run[i].nodes[a].log);
    LogMatching(hs[j], run[i].nodes[a].log, run[j].nodes[b].log, k, run[j].nodes[b].log[k - 1].term);
  }

  lemma GrowsLeads(h: Hist, h': Hist)
    requires Grows(h, h')
    ensures LeadGrows(h, h') && CmtGrows(h, h')
  {
  }

  // ----- state machine safety

  lemma NodeCertified(g: Group, h: Hist, s: State, id: Id)
    requires Inv(g, h, s) && id in s.nodes
    ensures Certified(g, h, s.nodes[id].log, s.nodes[id].committed, s.nodes[id].term)
    ensures s.nodes[id].committed <= |s.nodes[id].log|
    ensures HistOk(g, h)
  {
    hide HistOk, NodeOk, MsgOk, Certified;
    NodeFacts(g, h, s.nodes[id]);
  }

  /** State machine safety: whenever and wherever two nodes have committed an index, they hold the
      same entry there. */
  lemma StateMachineSafety(g: Group, run: seq<State>, events: seq<Event>, i: nat, j: nat, a: Id, b: Id, k: nat)
    requires GroupOk(g) && IsRun(g, run, events)
    requires i <= j < |run|
    requires a in run[i].nodes && b in run[j].nodes
    requires 0 < k <= run[i].nodes[a].committed && k <= run[j].nodes[b].committed
    ensures k <= |run[i].nodes[a].log| && k <= |run[j].nodes[b].log|
    ensures run[i].nodes[a].log[k - 1] == run[j].nodes[b].log[k - 1]
  {
    hide Inv, HistOk, Certified, Next;
    var hs := RunExplained(g, run, events);
    var x, y := run[i].nodes[a], run[j].nodes[b];
    NodeCertified(g, hs[i], run[i], a);
    NodeCertified(g, hs[j], run[j], b);
    GrowsLeads(hs[i], hs[j]);
    CertifiedGrows(g, hs[i], hs[j], x.log, x.committed, x.term, x.term);
    CertifiedAgree(g, hs[j], x.log, x.committed, x.term, y.log, y.committed, y.term, k - 1);
  }

  /** A leader whose term is later than every term at the time of a commit holds what was committed. */
  lemma CommittedReachesLaterLeaders(g: Group, run: seq<State>, events: seq<Event>, i: nat, j: nat, a: Id, b: Id)
    requires GroupOk(g) && IsRun(g, run, events)
    requires i <= j < |run|
    requires a in run[i].nodes && b in run[j].nodes && run[j].nodes[b].role == Leader
    requires forall v :: v in run[i].nodes ==> run[i].nodes[v].term < run[j].nodes[b].term
    ensures run[i].nodes[a].committed <= |run[i].nodes[a].log|
    ensures run[i].nodes[a].log[..run[i].nodes[a].committed] <= run[j].nodes[b].log
  {
    hide Inv, HistOk, Certified, Next;
    var hs := RunExplained(g, run, events);
    var x, y := run[i].nodes[a], run[j].nodes[b];
    NodeCertified(g, hs[i], run[i], a);
    LeaderRecorded(g, hs[j], run[j], b);
    NodeCertified(g, hs[j], run[j], b);
    if x.committed > 0 {
      var t := CertifierPast(g, hs[i], run[i], a);
      GrowsLeads(hs[i], hs[j]);
      CertifiedByGrows(g, hs[i], hs[j], x.log, x.committed, x.term, t);
      LeaderHoldsCertified(g, hs[j], x.log, x.committed, x.term, t, y.term);
    }
  }

  lemma CertifiedByGrows(g: Group, h: Hist, h': Hist, log: seq<Entry>, c: nat, lim: nat, t: nat)
    requires LeadGrows(h, h') && CmtGrows(h, h') && CertifiedBy(g, h, log, c, lim, t)
    ensures CertifiedBy(g, h', log, c, lim, t)
  {
    assert LeadGrowsAt(h, h', t);
  }

  lemma CertifierPast(g: Group, h: Hist, s: State, a: Id) returns (t: nat)
    requires Inv(g, h, s) && a in s.nodes && s.nodes[a].committed > 0
    ensures CertifiedBy(g, h, s.nodes[a].log, s.nodes[a].committed, s.nodes[a].term, t)
    ensures exists v :: v in s.nodes && t <= s.nodes[v].term
  {
    hide NodeOk, MsgOk;
    NodeFacts(g, h, s.nodes[a]);
    t :| CertifiedBy(g, h, s.nodes[a].log, s.nodes[a].committed, s.nodes[a].term, t);
    assert LeadOk(g, h, t);
    var v := h.lead[t].id;
    assert RunOk(g, h, t, v);
    NodeFacts(g, h, s.nodes[v]);
  }

  // ----- what one step of a node keeps

  /** Terms never go back; a vote within a term only goes from none to one; what is committed stays. */
  predicate Keeps(n: Node, n': Node) {
    && n.term <= n'.term
    && (n.term == n'.term && n.vote != NONE ==> n'.vote == n.vote)
    && n.committed <= n'.committed
    && n.committed <= |n.log| && n.committed <= |n'.log|
    && n'.log[..n.committed] == n.log[..n.committed]
  }

  lemma KeepsTrans(a: Node, b: Node, c: Node)
    requires Keeps(a, b) && Keeps(b, c)
    ensures Keeps(a, c)
  {
    assert c.log[..a.committed] == c.log[..b.committed][..a.committed];
    assert b.log[..a.committed] == b.log[..b.committed][..a.committed];
  }

  lemma CampaignKeeps(g: Group, n: Node)
    requires n.committed <= |n.log| && Campaign(g, n).Ok?
    ensures Keeps(n, Campaign(g, n).node)
  {
  }

  lemma PreCampaignKeeps(g: Group, n: Node)
    requires n.committed <= |n.log| && PreCampaign(g, n).Ok?
    ensures Keeps(n, PreCampaign(g, n).node)
  {
    var c := WithVote(BecomePreCandidate(n), n.id, true);
    if Campaign(g, c).Ok? {
      CampaignKeeps(g, c);
    }
  }

  lemma HandleAppendKeeps(n: Node, m: Msg)
    requires m.Append? && Follows(m.entries, m.index) && n.committed <= |n.log| && HandleAppend(n, m).Ok?
    ensures Keeps(n, HandleAppend(n, m).node)
  {
    hide FindConflict, FindConflictByTerm, Follows, AppendFrom;
    AppendFromKeeps(n, m.index, m.entries);
  }

  lemma AppendFromKeeps(n: Node, index: nat, ents: seq<Entry>)
    requires Follows(ents, index) && n.committed <= |n.log|
    ensures AppendFrom(n, index, ents).Ok? ==>
              Keeps(n, AppendFrom(n, index, ents).node) && AppendFrom(n, index, ents).node.committed == n.committed
  {
    hide FindConflict, Follows;
  }

  lemma RespondAllKeeps(n: Node, released: seq<Ctx>, pending: map<Ctx, ReadStatus>)
    requires forall c :: c in released ==> c in pending
    ensures RespondAll(n, released, pending).0 == n.(readStates := RespondAll(n, released, pending).0.readStates)
    decreases |released|
  {
    if released != [] {
      var st := pending[released[0]];
      RespondAllKeeps(Respond(n, st.from, released[0], st.index).0, released[1..], pending);
    }
  }

  lemma VoteResponseKeeps(g: Group, n: Node, m: Msg)
    requires m.VoteResp? && n.committed <= |n.log| && HandleVoteResponse(g, n, m).Ok?
    ensures Keeps(n, HandleVoteResponse(g, n, m).node)
  {
    hide Poll, MaybeCommitByVote, Keeps;
    KeepsRefl(n);
    if Poll(g, n, m.from, !m.reject).Ok? {
      var n' := Poll(g, n, m.from, !m.reject).node;
      PollKeeps(g, n, m.from, !m.reject);
      KeepsBounds(n, n');
      CommitByVoteKeeps(n', m.commit, m.commitTerm);
      KeepsTrans(n, n', MaybeCommitByVote(n', m.commit, m.commitTerm));
    }
  }

  lemma KeepsBounds(n: Node, n': Node)
    requires Keeps(n, n')
    ensures n.committed <= n'.committed && n.committed <= |n'.log|
  {
  }

  lemma PollKeeps(g: Group, n: Node, from: Id, vote: bool)
    requires n.committed <= |n.log| && Poll(g, n, from, vote).Ok?
    ensures Keeps(n, Poll(g, n, from, vote).node)
    ensures Poll(g, n, from, vote).node.committed == n.committed
  {
    hide JointVote;
    var c := WithVote(n, from, vote);
    if JointVote(g.cfg, c.votes) == Won && c.role == PreCandidate && Campaign(g, c).Ok? {
      CampaignKeeps(g, c);
    }
  }

  lemma CommitByVoteKeeps(n: Node, commit: nat, commitTerm: nat)
    requires n.committed <= |n.log|
    ensures Keeps(n, MaybeCommitByVote(n, commit, commitTerm))
  {
  }

  lemma HeartbeatResponseKeeps(g: Group, n: Node, m: Msg)
    requires m.HeartbeatResp? && n.committed <= |n.log| && HandleHeartbeatResponse(g, n, m).Ok?
    ensures Keeps(n, HandleHeartbeatResponse(g, n, m).node)
  {
    hide JointVote, Released, Advance, CanAdvance;
    var n1 := n.(waiting := RecvAck(n.waiting, m.from, m.ctx));
    if CanAdvance(n1.waiting, m.ctx) {
      ReleasedPending(n1.waiting, m.ctx);
      RespondAllKeeps(n1.(waiting := Advance(n1.waiting, m.ctx)), Released(n1.waiting, m.ctx), n1.waiting.pending);
    }
  }

  lemma DispatchKeeps(g: Group, n: Node, m: Msg, mci: nat)
    requires WellFormed(m) && n.committed <= |n.log| && Dispatch(g, n, m, mci).Ok?
    requires m.ReadIndex? || (m.Append? || m.Heartbeat? ==> m.term >= n.term)
    ensures Keeps(n, Dispatch(g, n, m, mci).node)
  {
    hide HandleAppend, HandleVoteResponse, HandleHeartbeatResponse;
    if m.Append? {
      if n.role == Follower {
        AppendKeeps(n.(leaderId := m.from), m);
      } else if n.role != Leader {
        AppendKeeps(BecomeFollower(n, m.term, m.from), m);
      }
    } else if m.VoteResp? && (n.role == Candidate || n.role == PreCandidate) {
      VoteResponseKeeps(g, n, m);
    } else if m.HeartbeatResp? && n.role == Leader {
      HeartbeatResponseKeeps(g, n, m);
    }
  }

  lemma AppendKeeps(n: Node, m: Msg)
    requires m.Append? && Follows(m.entries, m.index) && n.committed <= |n.log|
    ensures HandleAppend(n, m).Ok? ==> Keeps(n, HandleAppend(n, m).node)
  {
    if HandleAppend(n, m).Ok? {
      HandleAppendKeeps(n, m);
    }
  }

  lemma StepKeepsNode(g: Group, n: Node, m: Msg, mci: nat)
    requires WellFormed(m) && n.committed <= |n.log| && Step(g, n, m, mci).Ok?
    requires m.ReadIndex? || m.term > 0
    ensures Keeps(n, Step(g, n, m, mci).node)
  {
    hide Dispatch;
    if m.ReadIndex? {
      DispatchKeeps(g, n, m, mci);
    } else if m.term >= n.term {
      DispatchKeeps(g, CatchUp(n, m), m, mci);
    }
  }

  /** A pre-vote request never changes its receiver's term, vote or log. */
  lemma PreVoteChangesNothing(g: Group, n: Node, m: Msg, mci: nat)
    requires m.RequestVote? && m.pre && m.term > 0 && Step(g, n, m, mci).Ok?
    ensures var n' := Step(g, n, m, mci).node; n'.term == n.term && n'.vote == n.vote && n'.log == n.log
  {
  }

  /** Same term and vote, or the next term with a vote for itself. */
  predicate VoteStaysOrCampaigns(n: Node, n': Node) {
    && n'.id == n.id
    && ((n'.term == n.term && n'.vote == n.vote) || (n'.term == n.term + 1 && n'.vote == n.id))
  }

  lemma CampaignVotes(g: Group, n: Node)
    requires Campaign(g, n).Ok?
    ensures VoteStaysOrCampaigns(n, Campaign(g, n).node)
  {
    hide JointVote, VoteRequests;
  }

  lemma PollVotes(g: Group, n: Node, from: Id, vote: bool)
    requires n.role == PreCandidate && Poll(g, n, from, vote).Ok?
    ensures VoteStaysOrCampaigns(n, Poll(g, n, from, vote).node)
  {
    hide JointVote, Campaign;
    if Campaign(g, WithVote(n, from, vote)).Ok? {
      CampaignVotes(g, WithVote(n, from, vote));
    }
  }

  lemma CommitByVoteVotes(n: Node, commit: nat, commitTerm: nat)
    ensures var n' := MaybeCommitByVote(n, commit, commitTerm); n'.id == n.id && n'.term == n.term && n'.vote == n.vote
  {
  }

  lemma PreVotePoll(g: Group, n: Node, m: Msg)
    requires m.VoteResp? && m.pre && (n.role == Candidate || n.role == PreCandidate) && HandleVoteResponse(g, n, m).Ok?
    ensures VoteStaysOrCampaigns(n, HandleVoteResponse(g, n, m).node)
  {
    hide Poll, MaybeCommitByVote;
    if n.role == PreCandidate {
      PollVotes(g, n, m.from, !m.reject);
      CommitByVoteVotes(Poll(g, n, m.from, !m.reject).node, m.commit, m.commitTerm);
    }
  }

  /** An answer to a pre-vote request changes a vote only with the term: a refusal of a later term leaves
      the node a follower without a vote in that term, and a won poll makes it vote for itself in the next. */
  lemma PreVoteAnswerKeepsVote(g: Group, n: Node, m: Msg, mci: nat)
    requires m.VoteResp? && m.pre && m.term > 0 && Step(g, n, m, mci).Ok?
    ensures var n' := Step(g, n, m, mci).node;
            || (n'.term == n.term && n'.vote == n.vote)
            || (n'.term == n.term + 1 && n'.vote == n.id)
            || (n'.term == m.term > n.term && n'.vote == NONE && n'.role == Follower && m.reject)
  {
    hide HandleVoteResponse;
    if m.term >= n.term && CatchUp(n, m).role != Follower && CatchUp(n, m).role != Leader {
      PreVotePoll(g, CatchUp(n, m), m);
    }
  }

  /** Committed entries are never rewritten and the commit index never decreases, at any node. */
  lemma {:induction false} CommittedIsForever(g: Group, run: seq<State>, events: seq<Event>, i: nat, j: nat, a: Id)
    requires GroupOk(g) && IsRun(g, run, events)
    requires i <= j < |run| && a in run[i].nodes
    ensures a in run[j].nodes && Keeps(run[i].nodes[a], run[j].nodes[a])
    decreases j - i
  {
    hide Inv, Next, Keeps, HistOk;
    var hs := RunExplained(g, run, events);
    NodeCertified(g, hs[i], run[i], a);
    if i == j {
      KeepsRefl(run[i].nodes[a]);
    } else {
      NextKeeps(g, hs[i], run[i], events[i], run[i + 1], a);
      CommittedIsForever(g, run, events, i + 1, j, a);
      KeepsTrans(run[i].nodes[a], run[i + 1].nodes[a], run[j].nodes[a]);
    }
  }

  lemma KeepsRefl(n: Node)
    requires n.committed <= |n.log|
    ensures Keeps(n, n)
  {
  }

  lemma MsgHasTerm(g: Group, h: Hist, s: State, m: Msg)
    requires Inv(g, h, s) && m in s.live
    ensures m.ReadIndex? || m.term > 0
  {
    hide NodeOk;
    assert MsgOk(g, h, m);
    if m.Append? || m.Heartbeat? {
      LeadLogOk(g, h, m.term);
    }
  }

  lemma HandlesKeeps(g: Group, s: State, m: Msg, mci: nat, s': State, a: Id)
    requires Handles(g, s, m, mci, s') && a in s.nodes && s.nodes[a].committed <= |s.nodes[a].log|
    requires m.ReadIndex? || m.term > 0
    ensures a in s'.nodes && Keeps(s.nodes[a], s'.nodes[a])
  {
    hide Step, Keeps;
    if a == m.to {
      StepKeepsNode(g, s.nodes[a], m, mci);
    } else {
      KeepsRefl(s.nodes[a]);
    }
  }

  lemma HupKeeps(g: Group, n: Node, pre: bool)
    requires n.committed <= |n.log| && Hup(g, n, pre).Ok?
    ensures Keeps(n, Hup(g, n, pre).node)
  {
    hide Campaign, PreCampaign;
    if n.role == Leader {
      KeepsRefl(n);
    } else if pre {
      PreCampaignKeeps(g, n);
    } else {
      CampaignKeeps(g, n);
    }
  }

  lemma NextKeeps(g: Group, h: Hist, s: State, e: Event, s': State, a: Id)
    requires Inv(g, h, s) && Next(g, s, e, s') && a in s.nodes
    ensures a in s'.nodes && Keeps(s.nodes[a], s'.nodes[a])
  {
    hide Inv, HistOk, Handles, Hup, LeaderMay;
    NodeCertified(g, h, s, a);
    match e
    case Deliver(m, mci) =>
      MsgHasTerm(g, h, s, m);
      HandlesKeeps(g, s, m, mci, s', a);
    case AskRead(id, ctx) =>
      HandlesKeeps(g, s, ReadIndex(NONE, id, ctx), 0, s', a);
    case Timeout(id, pre) =>
      if id == a {
        HupKeeps(g, s.nodes[a], pre);
      }
    case Propose(id, bodies) =>
    case LeaderSends(id, m) =>
    case Persist(id, index, mci) =>
    case Release(id, msgs) =>
    case StepDown(id) =>
  }
}
