/** A leader commits what a quorum has acknowledged to it (raft-rs/src/raft.rs). */
module CommitProgress {
  import opened Types
  import opened Quorum
  import opened ReadQueue
  import opened RaftNode
  import opened History
  import opened Growth
  import opened Invariant
  import opened Moves
  import opened LogMoves
  import opened StepHandled
  import opened Cluster
  import opened Safety
  import opened NoPanic
  import CommitIndex

  /** The greatest index that a quorum has acknowledged. */
  ghost predicate IsCommitIndex(g: Group, matched: map<Id, nat>, i: nat) {
    Committable(g, matched, i) && forall k: nat :: Committable(g, matched, k) ==> k <= i
  }

  /** It is what the commit index computation returns for these acknowledgements without groups. */
  lemma ComputedIsCommitIndex(g: Group, matched: map<Id, nat>, l: CommitIndex.Acks, i: nat)
    requires l.Keys == matched.Keys && (forall v :: v in l ==> l[v].index == matched[v])
    requires CommitIndex.JointAcked(g.cfg, l, i)
    requires forall k: nat :: CommitIndex.JointAcked(g.cfg, l, k) ==> k <= i
    ensures IsCommitIndex(g, matched, i)
  {
    CommitIndex.CommitIndexIsCommittable(g, matched, l, i);
    forall k: nat | Committable(g, matched, k)
      ensures k <= i
    {
      if k > 0 {
        CommitIndex.JointAckedIsQuorum(g.cfg, l, k, Acked(matched, k));
      }
    }
  }

  /** In a configuration of one half it is the greatest index that a majority has acknowledged. */
  lemma OneHalfIsGreatestAcked(g: Group, matched: map<Id, nat>, l: CommitIndex.Acks, i: nat)
    requires g.cfg.incoming != {} && g.cfg.outgoing == {}
    requires l.Keys == matched.Keys && forall v :: v in l ==> l[v].index == matched[v]
    requires CommitIndex.GreatestAcked(g.cfg.incoming, l, i)
    ensures IsCommitIndex(g, matched, i)
  {
    ComputedIsCommitIndex(g, matched, l, i);
  }

  // ----- one answer

  /** The leader's commit index once it has computed `mci`: it takes over an index of its own log and term. */
  function CommitsTo(n: Node, mci: nat): nat {
    if n.committed < mci <= |n.log| && n.log[mci - 1].term == n.term then mci else n.committed
  }

  /** An acknowledgement that goes further than what the leader knew is noted, and the leader commits the
      computed index if it lies in its log and is of its term. */
  lemma AckCommits(g: Group, n: Node, m: Msg, mci: nat)
    requires n.role == Leader && m.AppendResp? && !m.reject && m.term == n.term > 0
    requires m.from in n.matched && n.matched[m.from] < m.index
    ensures Step(g, n, m, mci) == Ok(n.(matched := n.matched[m.from := m.index], committed := CommitsTo(n, mci)), {})
  {
    assert n.matched[m.from := m.index] != n.matched;
  }

  /** Any other answer changes nothing here. */
  lemma OtherAcks(g: Group, n: Node, m: Msg, mci: nat)
    requires n.role == Leader && m.AppendResp? && m.term == n.term > 0
    requires m.reject || m.from !in n.matched || m.index <= n.matched[m.from]
    ensures Step(g, n, m, mci) == Ok(n, {})
  {
  }

  /** What is reported as persisted counts as the node's own acknowledgement, if it leads. */
  lemma PersistCommits(n: Node, index: nat, mci: nat)
    ensures PersistTo(n, index, mci).persisted == Max(n.persisted, index)
    ensures n.role != Leader || index <= n.persisted ==> PersistTo(n, index, mci) == n.(persisted := Max(n.persisted, index))
    ensures n.role == Leader && index > n.persisted && n.id in n.matched && n.matched[n.id] < index ==>
              PersistTo(n, index, mci) ==
              n.(persisted := index, matched := n.matched[n.id := index], committed := CommitsTo(n, mci))
  {
    if n.role == Leader && n.id in n.matched && n.matched[n.id] < index {
      assert n.matched[n.id := index] != n.matched;
    }
  }

  // ----- the commit index lies in the leader's log

  /** No quorum acknowledges more than the leader has: what a node claims beyond it is blocked for good. */
  lemma CommittableInLog(g: Group, h: Hist, n: Node, i: nat)
    requires GroupOk(g) && ClaimsOk(g, h) && LeaderOk(g, h, n) && n.role == Leader && Committable(g, n.matched, i)
    ensures i <= |n.log|
  {
    if i > |n.log| {
      var q := Acked(n.matched, i);
      assert HasMajority(g.cfg.incoming, q);
      MajorityMember(g.cfg.incoming, q);
      var v :| v in q;
      assert Claim(h, n.term, v) >= i;
      assert ClaimOk(g, h, n.term, v);
      assert Blocked(g, h, n.term, i);
      var s :| IsQuorum(g.cfg, s) && BlockedBy(h, n.term, i, s);
      var u := QuorumsMeet(g.cfg, q, s);
      assert false;
    }
  }

  lemma MajorityMember(voters: set<Id>, s: set<Id>)
    requires voters != {} && HasMajority(voters, s)
    ensures exists v :: v in s
  {
    assert |voters * s| > 0;
    var v :| v in voters * s;
  }

  // ----- leaders over whole runs

  /** A leader has committed every entry of its term that a quorum has acknowledged to it. */
  ghost predicate CommitsAcked(g: Group, n: Node) {
    n.role == Leader ==> forall i: nat :: Committable(g, n.matched, i) && Has(n.log, i, n.term) ==> i <= n.committed
  }

  /** The commit index was computed from what the node has been acknowledged. */
  ghost predicate ComputesIt(g: Group, e: Event, s': State) {
    match e
    case Deliver(m, mci) => m.AppendResp? && m.to in s'.nodes ==> IsCommitIndex(g, s'.nodes[m.to].matched, mci)
    case Persist(id, _, mci) => id in s'.nodes ==> IsCommitIndex(g, s'.nodes[id].matched, mci)
    case _ => true
  }

  /** Once the computed index is taken over, nothing acknowledged is left. */
  lemma TakesItOver(g: Group, h: Hist, n: Node, mci: nat)
    requires GroupOk(g) && HistOk(g, h) && NodeOk(g, h, n) && n.role == Leader
    requires IsCommitIndex(g, n.matched, mci) && n.committed >= CommitsTo(n, mci)
    ensures CommitsAcked(g, n)
  {
    hide Committable, LogOk, Remembers, Certified, ReadsFit, AnswersOk, BallotOk, ClaimHeld;
    forall i: nat | Committable(g, n.matched, i) && Has(n.log, i, n.term)
      ensures i <= n.committed
    {
      CommittableInLog(g, h, n, mci);
      TermsGrow(g, h, n.log, i - 1, mci - 1);
    }
  }

  /** What has just become a leader knows only of what it persisted itself, before its first own entry. */
  predicate JustLeads(n: Node) {
    && |n.log| > 0 && (forall p :: p in n.matched ==> n.matched[p] < |n.log|)
    && (forall p :: p in n.matched && p != n.id ==> n.matched[p] == 0)
    && forall k :: 0 <= k < |n.log| - 1 ==> n.log[k].term < n.term
  }

  lemma NoneIsNoQuorum(g: Group)
    requires GroupOk(g)
    ensures !IsQuorum(g.cfg, {})
  {
    assert g.cfg.incoming * {} == {};
  }

  lemma JustLeadsCommits(g: Group, n: Node)
    requires GroupOk(g) && JustLeads(n)
    ensures CommitsAcked(g, n)
  {
    NoneIsNoQuorum(g);
    assert Acked(n.matched, |n.log|) == {};
  }

  // ----- how a node comes to lead, and what a leader keeps

  lemma CampaignLeads(g: Group, n: Node)
    requires TermsBelow(n.log, n.term + 1) && Campaign(g, n).Ok? && Campaign(g, n).node.role == Leader
    ensures JustLeads(Campaign(g, n).node)
  {
    hide JointVote;
  }

  lemma HupLeads(g: Group, n: Node, pre: bool)
    requires TermsBelow(n.log, n.term + 1) && Hup(g, n, pre).Ok? && Hup(g, n, pre).node.role == Leader
    ensures Hup(g, n, pre).node == n || JustLeads(Hup(g, n, pre).node)
  {
    var c := WithVote(BecomePreCandidate(n), n.id, true);
    if n.role != Leader && Campaign(g, if pre then c else n).Ok? && Campaign(g, if pre then c else n).node.role == Leader {
      CampaignLeads(g, if pre then c else n);
    }
    hide Campaign, JointVote, JustLeads;
  }

  lemma CandidateLogBelow(g: Group, h: Hist, n: Node)
    requires HistOk(g, h) && NodeOk(g, h, n) && n.role == Candidate
    ensures TermsBelow(n.log, n.term)
  {
    hide LogOk, Remembers, Certified;
    assert RunOk(g, h, n.term, n.id);
  }

  lemma ElectedLeads(n: Node)
    requires TermsBelow(n.log, n.term) && BecomeLeader(n).Ok?
    ensures JustLeads(BecomeLeader(n).node)
  {
  }

  lemma PollLeads(g: Group, h: Hist, n: Node, from: Id, vote: bool)
    requires HistOk(g, h) && NodeOk(g, h, n) && (n.role == Candidate || n.role == PreCandidate)
    requires Poll(g, n, from, vote).Ok? && Poll(g, n, from, vote).node.role == Leader
    ensures JustLeads(Poll(g, n, from, vote).node)
  {
    NodeFacts(g, h, n);
    if n.role == Candidate {
      CandidateLogBelow(g, h, n);
    }
    hide HistOk, NodeOk, JointVote, Campaign, JustLeads, BecomeLeader, BecomeFollower, TermsBelow;
    var c := WithVote(n, from, vote);
    FollowerRole(c);
    if n.role == PreCandidate {
      if Campaign(g, c).Ok? && Campaign(g, c).node.role == Leader {
        CampaignLeads(g, c);
      }
    } else if BecomeLeader(c).Ok? {
      ElectedLeads(c);
    }
  }

  lemma FollowerRole(n: Node)
    ensures BecomeFollower(n, n.term, NONE).role == Follower
  {
  }

  lemma CommitByVoteLeads(n: Node, commit: nat, commitTerm: nat)
    ensures var n' := MaybeCommitByVote(n, commit, commitTerm);
            if n.role == Leader then n' == n else n'.role != Leader
  {
  }

  lemma VoteResponseLeads(g: Group, h: Hist, n: Node, m: Msg)
    requires HistOk(g, h) && NodeOk(g, h, n) && (n.role == Candidate || n.role == PreCandidate)
    requires m.VoteResp? && HandleVoteResponse(g, n, m).Ok? && HandleVoteResponse(g, n, m).node.role == Leader
    ensures JustLeads(HandleVoteResponse(g, n, m).node)
  {
    hide HistOk, NodeOk, Poll, MaybeCommitByVote, JustLeads;
    if Poll(g, n, m.from, !m.reject).Ok? {
      CommitByVoteLeads(Poll(g, n, m.from, !m.reject).node, m.commit, m.commitTerm);
      if Poll(g, n, m.from, !m.reject).node.role == Leader {
        PollLeads(g, h, n, m.from, !m.reject);
      }
    }
  }

  /** Whoever did not lead and leads after a message has just come to lead. */
  lemma StepLeads(g: Group, h: Hist, n: Node, m: Msg, mci: nat)
    requires HistOk(g, h) && NodeOk(g, h, n) && n.role != Leader && WellFormed(m)
    requires Step(g, n, m, mci).Ok? && Step(g, n, m, mci).node.role == Leader
    ensures JustLeads(Step(g, n, m, mci).node)
  {
    hide HistOk, NodeOk, HandleVoteResponse, MaybeCommitByVote, HandleAppend, JustLeads, Grants;
    var x := if m.ReadIndex? then n else CatchUp(n, m);
    if m.RequestVote? {
      CommitByVoteLeads(x, m.commit, m.commitTerm);
    } else if m.Append? {
      AppendNotLeading(x.(leaderId := m.from), m);
      AppendNotLeading(BecomeFollower(x, m.term, m.from), m);
    } else if m.VoteResp? && x == n && n.role != Follower && HandleVoteResponse(g, n, m).Ok? && HandleVoteResponse(g, n, m).node.role == Leader {
      VoteResponseLeads(g, h, n, m);
    }
  }

  lemma AppendNotLeading(n: Node, m: Msg)
    requires m.Append? && Follows(m.entries, m.index)
    ensures HandleAppend(n, m).Ok? ==> HandleAppend(n, m).node.role == n.role
  {
    if HandleAppend(n, m).Ok? {
      AppendRole(n, m);
    }
  }

  /** What a leader counts and has committed changes only by an acknowledgement. */
  lemma LeaderKeeps(g: Group, n: Node, m: Msg, mci: nat)
    requires n.role == Leader && WellFormed(m) && (m.ReadIndex? || m.term > 0)
    requires Step(g, n, m, mci).Ok? && Step(g, n, m, mci).node.role == Leader
    ensures var n' := Step(g, n, m, mci).node;
            && n'.term == n.term && n'.log == n.log
            && if m.AppendResp? && m.term == n.term && !m.reject && m.from in n.matched && n.matched[m.from] < m.index
               then n'.committed == CommitsTo(n, mci)
               else n'.matched == n.matched && n'.committed == n.committed
  {
    if m.AppendResp? && m.term == n.term {
      if !m.reject && m.from in n.matched && n.matched[m.from] < m.index {
        AckCommits(g, n, m, mci);
      } else {
        OtherAcks(g, n, m, mci);
      }
    } else {
      OtherMessageKeeps(g, n, m, mci);
    }
    hide Step;
  }

  lemma OtherMessageKeeps(g: Group, n: Node, m: Msg, mci: nat)
    requires n.role == Leader && WellFormed(m) && (m.ReadIndex? || m.term > 0) && !(m.AppendResp? && m.term == n.term)
    requires Step(g, n, m, mci).Ok? && Step(g, n, m, mci).node.role == Leader
    ensures var n' := Step(g, n, m, mci).node;
            n'.term == n.term && n'.log == n.log && n'.matched == n.matched && n'.committed == n.committed
  {
    hide HandleHeartbeatResponse, HandleAppend, HandleVoteResponse, MaybeCommitByVote, Grants;
    if m.HeartbeatResp? && m.term == n.term {
      ConfirmKeeps(g, n, m);
    } else if m.RequestVote? {
      CommitByVoteLeads(CatchUp(n, m), m.commit, m.commitTerm);
    } else if m.Append? {
      AppendNotLeading(CatchUp(n, m).(leaderId := m.from), m);
    }
  }

  lemma ConfirmKeeps(g: Group, n: Node, m: Msg)
    requires m.HeartbeatResp? && HandleHeartbeatResponse(g, n, m).Ok?
    ensures var n' := HandleHeartbeatResponse(g, n, m).node; n' == n.(waiting := n'.waiting, readStates := n'.readStates)
  {
    hide JointVote, Released, Advance, CanAdvance;
    var n1 := n.(waiting := RecvAck(n.waiting, m.from, m.ctx));
    if CanAdvance(n1.waiting, m.ctx) {
      ReleasedPending(n1.waiting, m.ctx);
      RespondAllKeeps(n1.(waiting := Advance(n1.waiting, m.ctx)), Released(n1.waiting, m.ctx), n1.waiting.pending);
    }
  }

  // ----- whole runs

  lemma NodeOf(g: Group, h: Hist, s: State, id: Id)
    requires Inv(g, h, s) && id in s.nodes
    ensures GroupOk(g) && HistOk(g, h) && NodeOk(g, h, s.nodes[id]) && s.nodes[id].id == id
  {
  }

  lemma SameCommits(g: Group, n: Node, n': Node)
    requires CommitsAcked(g, n) && n.role == Leader
    requires n'.role == Leader && n'.matched == n.matched && n'.log == n.log && n'.term == n.term && n'.committed >= n.committed
    ensures CommitsAcked(g, n')
  {
    hide Committable;
  }

  lemma TakenOverCommits(n: Node, n': Node, mci: nat)
    requires n'.log == n.log && n'.term == n.term && n'.committed == CommitsTo(n, mci)
    ensures n'.committed >= CommitsTo(n', mci)
  {
  }

  lemma StepCommits(g: Group, h: Hist, n: Node, m: Msg, mci: nat, h': Hist, n': Node)
    requires GroupOk(g) && HistOk(g, h) && NodeOk(g, h, n) && HistOk(g, h') && NodeOk(g, h', n') && CommitsAcked(g, n)
    requires WellFormed(m) && (m.ReadIndex? || m.term > 0) && Step(g, n, m, mci).Ok? && n' == Step(g, n, m, mci).node
    requires m.AppendResp? ==> IsCommitIndex(g, n'.matched, mci)
    ensures CommitsAcked(g, n')
  {
    hide *;
    if n'.role != Leader {
      NotLeading(g, n');
    } else if n.role != Leader {
      StepLeads(g, h, n, m, mci);
      JustLeadsCommits(g, n');
    } else {
      LeaderKeeps(g, n, m, mci);
      if n'.matched == n.matched && n'.committed == n.committed {
        SameCommits(g, n, n');
      } else {
        TakenOverCommits(n, n', mci);
        TakesItOver(g, h', n', mci);
      }
    }
  }

  lemma HandlesCommits(g: Group, h: Hist, s: State, m: Msg, mci: nat, h': Hist, s': State)
    requires Inv(g, h, s) && Inv(g, h', s') && Handles(g, s, m, mci, s') && (m.ReadIndex? || m.term > 0)
    requires CommitsAcked(g, s.nodes[m.to])
    requires m.AppendResp? ==> IsCommitIndex(g, s'.nodes[m.to].matched, mci)
    ensures CommitsAcked(g, s'.nodes[m.to])
  {
    hide Inv, Step, CommitsAcked, IsCommitIndex, HistOk, NodeOk, TakesRead, MciOk, GroupOk;
    NodeOf(g, h, s, m.to);
    NodeOf(g, h', s', m.to);
    StepCommits(g, h, s.nodes[m.to], m, mci, h', s'.nodes[m.to]);
  }

  lemma NotLeading(g: Group, n: Node)
    requires n.role != Leader
    ensures CommitsAcked(g, n)
  {
  }

  lemma ProposeCommits(g: Group, h: Hist, n: Node, n': Node)
    requires GroupOk(g) && HistOk(g, h) && NodeOk(g, h, n) && n.role == Leader && CommitsAcked(g, n)
    requires n.log <= n'.log && n' == n.(log := n'.log)
    ensures CommitsAcked(g, n')
  {
    hide Committable, LogOk, Remembers, Certified, ReadsFit, AnswersOk, BallotOk, ClaimHeld;
    forall i: nat | Committable(g, n.matched, i) && Has(n'.log, i, n'.term)
      ensures i <= n'.committed
    {
      CommittableInLog(g, h, n, i);
      assert n'.log[i - 1] == n.log[i - 1];
      assert Has(n.log, i, n.term);
    }
  }

  lemma PersistCommitsAcked(g: Group, n: Node, index: nat, mci: nat, h': Hist)
    requires GroupOk(g) && HistOk(g, h') && NodeOk(g, h', PersistTo(n, index, mci)) && CommitsAcked(g, n) && n.id in n.matched
    requires IsCommitIndex(g, PersistTo(n, index, mci).matched, mci)
    ensures CommitsAcked(g, PersistTo(n, index, mci))
  {
    PersistCommits(n, index, mci);
    var n' := PersistTo(n, index, mci);
    hide HistOk, NodeOk, IsCommitIndex, CommitsAcked, GroupOk;
    if n.role != Leader {
      NotLeading(g, n');
    } else if index > n.persisted && n.matched[n.id] < index {
      TakenOverCommits(n, n', mci);
      TakesItOver(g, h', n', mci);
    } else {
      SameCommits(g, n, n');
    }
  }

  lemma NextCommits(g: Group, h: Hist, s: State, e: Event, h': Hist, s': State, id: Id)
    requires Inv(g, h, s) && Inv(g, h', s') && Next(g, s, e, s') && ComputesIt(g, e, s')
    requires id in s.nodes && CommitsAcked(g, s.nodes[id])
    ensures id in s'.nodes && CommitsAcked(g, s'.nodes[id])
  {
    hide Inv, Handles, Hup, LeaderMay, CommitsAcked, PersistTo, Acknowledge, IsCommitIndex, Committable, HistOk, NodeOk, MayLeave, WinsAlone, GroupOk;
    NodeOf(g, h, s, id);
    match e
    case Deliver(m, mci) =>
      MsgHasTerm(g, h, s, m);
      DeliverCommits(g, h, s, m, mci, h', s', id);
    case AskRead(v, ctx) =>
      DeliverCommits(g, h, s, ReadIndex(NONE, v, ctx), 0, h', s', id);
    case Timeout(v, pre) =>
      if v == id {
        HupCommits(g, h, s.nodes[id], pre);
      }
    case Propose(v, bodies) =>
      if v == id {
        ProposeCommits(g, h, s.nodes[id], s'.nodes[id]);
      }
    case LeaderSends(v, m) =>
    case Persist(v, index, mci) =>
      if v == id {
        NodeOf(g, h', s', id);
        NodeFacts(g, h, s.nodes[id]);
        PersistCommitsAcked(g, s.nodes[id], index, mci, h');
      }
    case Release(v, msgs) =>
    case StepDown(v) =>
      if v == id {
        NotLeading(g, s'.nodes[id]);
      }
  }

  lemma DeliverCommits(g: Group, h: Hist, s: State, m: Msg, mci: nat, h': Hist, s': State, id: Id)
    requires Inv(g, h, s) && Inv(g, h', s') && Handles(g, s, m, mci, s') && (m.ReadIndex? || m.term > 0)
    requires id in s.nodes && CommitsAcked(g, s.nodes[id])
    requires m.AppendResp? && m.to in s'.nodes ==> IsCommitIndex(g, s'.nodes[m.to].matched, mci)
    ensures id in s'.nodes && CommitsAcked(g, s'.nodes[id])
  {
    hide Inv, Step, CommitsAcked, IsCommitIndex, TakesRead, MciOk;
    if id == m.to {
      HandlesCommits(g, h, s, m, mci, h', s');
    }
  }

  lemma HupCommits(g: Group, h: Hist, n: Node, pre: bool)
    requires GroupOk(g) && NodeOk(g, h, n) && CommitsAcked(g, n) && Hup(g, n, pre).Ok?
    ensures CommitsAcked(g, Hup(g, n, pre).node)
  {
    NodeFacts(g, h, n);
    hide NodeOk, Hup, CommitsAcked, GroupOk;
    var n' := Hup(g, n, pre).node;
    if n'.role != Leader {
      NotLeading(g, n');
    } else {
      HupLeads(g, n, pre);
      if n' != n {
        JustLeadsCommits(g, n');
      }
    }
  }

  /** In every run in which the commit indexes are computed from the acknowledgements, at any time each leader
      has committed every entry of its term that a quorum has acknowledged to it. */
  lemma {:induction false} LeadersCommitAcked(g: Group, run: seq<State>, events: seq<Event>, j: nat, id: Id)
    requires GroupOk(g) && IsRun(g, run, events) && j < |run|
    requires forall i :: 0 <= i < |events| ==> ComputesIt(g, events[i], run[i + 1])
    requires id in run[j].nodes
    ensures CommitsAcked(g, run[j].nodes[id])
  {
    hide Inv, Next, Grows, CommitsAcked, ComputesIt;
    var hs := RunExplained(g, run, events);
    RunCommits(g, run, events, hs, j, id);
  }

  lemma {:induction false} RunCommits(g: Group, run: seq<State>, events: seq<Event>, hs: seq<Hist>, j: nat, id: Id)
    requires IsRun(g, run, events) && Explains(g, hs, run) && j < |run|
    requires forall i :: 0 <= i < |events| ==> ComputesIt(g, events[i], run[i + 1])
    requires id in run[j].nodes
    ensures CommitsAcked(g, run[j].nodes[id])
    decreases j
  {
    hide Inv, Next, Grows, CommitsAcked, ComputesIt;
    if j == 0 {
      assert Init(g, run[0]);
      NotLeading(g, run[0].nodes[id]);
    } else {
      SameNodes(g, hs[j - 1], run[j - 1], hs[j], run[j]);
      RunCommits(g, run, events, hs, j - 1, id);
      NextCommits(g, hs[j - 1], run[j - 1], events[j - 1], hs[j], run[j], id);
    }
  }

  lemma SameNodes(g: Group, h: Hist, s: State, h': Hist, s': State)
    requires Inv(g, h, s) && Inv(g, h', s')
    ensures s.nodes.Keys == s'.nodes.Keys
  {
  }
}
