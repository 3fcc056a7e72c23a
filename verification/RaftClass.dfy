/** The consensus node as the object that `Raft::step` updates in place (raft-rs/src/raft.rs). Every
    method is proved to do what its function in module RaftNode says; where that function is a failure
    the program stops, so the methods ask that it is not. */
module RaftClass {
  import opened Types
  import opened Quorum
  import opened ReadQueue
  import opened RaftNode

  class Raft {
    const g: Group
    const id: Id
    const priority: int
    var term: nat
    var vote: Id
    var role: Role
    var leaderId: Id
    var log: seq<Entry>
    var committed: nat
    var persisted: nat
    var votes: Votes
    var matched: map<Id, nat>
    var waiting: Reads
    var readStates: seq<ReadState>
    var msgs: set<Msg>

    function State(): Node
      reads this
    {
      Node(id, term, vote, role, leaderId, log, committed, persisted, votes, matched, waiting, readStates, priority)
    }

    /** The object is as the outcome `r` of an operation says, and has sent its messages. */
    twostate predicate Did(r: Outcome)
      reads this
    {
      r.Ok? && State() == r.node && msgs == old(msgs) + r.out
    }

    constructor (g: Group, id: Id, priority: int)
      ensures this.g == g && State() == Node(id, 0, NONE, Follower, NONE, [], 0, 0, map[], map p | p in g.peers :: 0, NoReads, [], priority)
      ensures msgs == {}
    {
      this.g, this.id, this.priority := g, id, priority;
      term, vote, role, leaderId := 0, NONE, Follower, NONE;
      log, committed, persisted, votes := [], 0, 0, map[];
      matched, waiting, readStates, msgs := map p | p in g.peers :: 0, NoReads, [], {};
    }

    // ----- role changes

    method Reset(t: nat)
      modifies this
      ensures State() == RaftNode.Reset(old(State()), t) && msgs == old(msgs)
    {
      if term != t {
        term, vote := t, NONE;
      }
      leaderId, votes, waiting := NONE, map[], NoReads;
      ResetMatched();
    }

    /** A new leader knows only what it has persisted itself. */
    method ResetMatched()
      modifies this`matched
      ensures matched == map p | p in old(matched) :: if p == id then persisted else 0
    {
      var rest := matched.Keys;
      while rest != {}
        invariant rest <= matched.Keys && matched.Keys == old(matched).Keys
        invariant forall p :: p in matched ==>
                    matched[p] == if p in rest then old(matched)[p] else if p == id then persisted else 0
        decreases |rest|
      {
        var p :| p in rest;
        matched := matched[p := if p == id then persisted else 0];
        rest := rest - {p};
      }
    }

    method BecomeFollower(t: nat, leader: Id)
      modifies this
      ensures State() == RaftNode.BecomeFollower(old(State()), t, leader) && msgs == old(msgs)
    {
      Reset(t);
      leaderId, role := leader, Follower;
    }

    method BecomeCandidate()
      modifies this
      ensures State() == RaftNode.BecomeCandidate(old(State())) && msgs == old(msgs)
    {
      Reset(term + 1);
      vote, role := id, Candidate;
    }

    method BecomePreCandidate()
      modifies this
      ensures State() == RaftNode.BecomePreCandidate(old(State())) && msgs == old(msgs)
    {
      role, votes, leaderId := PreCandidate, map[], NONE;
    }

    method BecomeLeader()
      requires RaftNode.BecomeLeader(State()).Ok?
      modifies this
      ensures Did(RaftNode.BecomeLeader(old(State())))
    {
      Reset(term);
      leaderId, role := id, Leader;
      log := log + [EmptyEntry(term, |log| + 1)];
    }

    // ----- elections

    method RecordVote(from: Id, granted: bool)
      modifies this
      ensures State() == WithVote(old(State()), from, granted) && msgs == old(msgs)
    {
      if from !in votes {
        votes := votes[from := granted];
      }
    }

    /** Asks every other voter for its vote. */
    method SendVoteRequests(pre: bool, t: nat)
      modifies this`msgs
      ensures msgs == old(msgs) + VoteRequests(g, State(), pre, t)
    {
      AllRequests(g, State(), pre, t);
      hide RequestsTo, VoteRequests;
      var out := Requests(State(), Voters(g.cfg) - {id}, pre, t);
      msgs := msgs + out;
    }

    static method Requests(n: Node, voters: set<Id>, pre: bool, t: nat) returns (out: set<Msg>)
      ensures out == RequestsTo(n, voters, pre, t)
    {
      out := {};
      assert out == RequestsTo(n, {}, pre, t);
      hide RequestsTo, VoteRequest;
      var rest := voters;
      ghost var asked: set<Id> := {};
      while rest != {}
        invariant asked + rest == voters
        invariant out == RequestsTo(n, asked, pre, t)
        decreases |rest|
      {
        var v :| v in rest;
        OneMoreRequest(n, asked, v, pre, t);
        out := out + {VoteRequest(n, v, pre, t)};
        asked, rest := asked + {v}, rest - {v};
      }
      assert asked == voters;
    }

    method Campaign()
      requires RaftNode.Campaign(g, State()).Ok?
      modifies this
      ensures Did(RaftNode.Campaign(g, old(State())))
    {
      hide JointVote, VoteRequests;
      BecomeCandidate();
      RecordVote(id, true);
      var r := CountJoint(g.cfg, votes);
      if r == Won {
        BecomeLeader();
      } else {
        SendVoteRequests(false, term);
        if r == Lost {
          BecomeFollower(term, NONE);
        }
      }
    }

    method PreCampaign()
      requires RaftNode.PreCampaign(g, State()).Ok?
      modifies this
      ensures Did(RaftNode.PreCampaign(g, old(State())))
    {
      hide JointVote, VoteRequests, RaftNode.Campaign;
      BecomePreCandidate();
      RecordVote(id, true);
      var r := CountJoint(g.cfg, votes);
      if r == Won {
        Campaign();
      } else {
        SendVoteRequests(true, term + 1);
        if r == Lost {
          BecomeFollower(term, NONE);
        }
      }
    }

    method Hup(pre: bool)
      requires RaftNode.Hup(g, State(), pre).Ok?
      modifies this
      ensures Did(RaftNode.Hup(g, old(State()), pre))
    {
      hide RaftNode.Campaign, RaftNode.PreCampaign;
      if role != Leader {
        if pre {
          PreCampaign();
        } else {
          Campaign();
        }
      }
    }

    method Poll(from: Id, granted: bool)
      requires RaftNode.Poll(g, State(), from, granted).Ok?
      modifies this
      ensures Did(RaftNode.Poll(g, old(State()), from, granted))
    {
      hide JointVote, RaftNode.Campaign;
      RecordVote(from, granted);
      var r := CountJoint(g.cfg, votes);
      if r == Won {
        if role == PreCandidate {
          Campaign();
        } else {
          BecomeLeader();
        }
      } else if r == Lost {
        BecomeFollower(term, NONE);
      }
    }

    method MaybeCommitAt(index: nat, t: nat)
      modifies this
      ensures State() == RaftNode.MaybeCommitAt(old(State()), index, t) && msgs == old(msgs)
    {
      if index > committed && index <= |log| && TermAt(log, index) == t {
        committed := index;
      }
    }

    /** Whether a membership change lies in the given part of the log. */
    method HasConfChange(from: nat, to: nat) returns (found: bool)
      requires from <= to <= |log|
      ensures found <==> exists i :: from <= i < to && IsConfChange(log[i])
    {
      for i := from to to
        invariant forall k :: from <= k < i ==> !IsConfChange(log[k])
      {
        if IsConfChange(log[i]) {
          return true;
        }
      }
      found := false;
    }

    method MaybeCommitByVote(commit: nat, commitTerm: nat)
      modifies this
      ensures State() == RaftNode.MaybeCommitByVote(old(State()), commit, commitTerm) && msgs == old(msgs)
    {
      if commit == 0 || commitTerm == 0 || commit <= committed || role == Leader {
        return;
      }
      var last := committed;
      MaybeCommitAt(commit, commitTerm);
      if committed == last || (role != Candidate && role != PreCandidate) {
        return;
      }
      var found := HasConfChange(last, committed);
      if found {
        BecomeFollower(term, NONE);
      }
    }

    method HandleVoteRequest(m: Msg)
      requires m.RequestVote? && RaftNode.HandleVoteRequest(State(), m).Ok?
      modifies this
      ensures Did(RaftNode.HandleVoteRequest(old(State()), m))
    {
      hide Grants, RaftNode.MaybeCommitByVote;
      if Grants(State(), m) {
        msgs := msgs + {VoteResp(id, m.from, m.term, m.pre, false, 0, 0)};
        if !m.pre {
          vote := m.from;
        }
      } else {
        msgs := msgs + {VoteResp(id, m.from, term, m.pre, true, committed, TermAt(log, committed))};
        MaybeCommitByVote(m.commit, m.commitTerm);
      }
    }

    method HandleVoteResponse(m: Msg)
      requires m.VoteResp? && RaftNode.HandleVoteResponse(g, State(), m).Ok?
      modifies this
      ensures Did(RaftNode.HandleVoteResponse(g, old(State()), m))
    {
      hide RaftNode.Poll, RaftNode.MaybeCommitByVote;
      if (role == PreCandidate && !m.pre) || (role == Candidate && m.pre) {
        return;
      }
      Poll(m.from, !m.reject);
      MaybeCommitByVote(m.commit, m.commitTerm);
    }

    // ----- following

    method CommitTo(to: nat)
      requires RaftNode.CommitTo(State(), to).Ok?
      modifies this
      ensures State() == RaftNode.CommitTo(old(State()), to).node && msgs == old(msgs)
    {
      if committed < to {
        committed := to;
      }
    }

    /** The index of the first entry that the log does not hold. */
    method FindConflict(ents: seq<Entry>) returns (ci: nat)
      ensures ci == RaftNode.FindConflict(log, ents)
    {
      assert ents[0..] == ents;
      for i := 0 to |ents|
        invariant RaftNode.FindConflict(log, ents) == RaftNode.FindConflict(log, ents[i..])
      {
        assert ents[i..][1..] == ents[i + 1..];
        if TermAt(log, ents[i].index) != ents[i].term {
          return ents[i].index;
        }
      }
      ci := 0;
    }

    method FindConflictByTerm(index: nat, t: nat) returns (i: nat, found: Option<nat>)
      ensures (i, found) == RaftNode.FindConflictByTerm(log, index, t)
    {
      i := index;
      if index > |log| {
        return index, None;
      }
      while TermAt(log, i) > t
        invariant i <= index
        invariant RaftNode.FindConflictByTerm(log, index, t) == RaftNode.FindConflictByTerm(log, i, t)
        decreases i
      {
        i := i - 1;
      }
      found := Some(TermAt(log, i));
    }

    method AppendFrom(index: nat, ents: seq<Entry>)
      requires Follows(ents, index) && RaftNode.AppendFrom(State(), index, ents).Ok?
      modifies this
      ensures State() == RaftNode.AppendFrom(old(State()), index, ents).node && msgs == old(msgs)
    {
      hide RaftNode.FindConflict, Follows;
      var ci := FindConflict(ents);
      if ci != 0 {
        log := log[..ci - 1] + ents[ci - index - 1..];
        if persisted > ci - 1 {
          persisted := ci - 1;
        }
      }
    }

    method HandleAppend(m: Msg)
      requires m.Append? && Follows(m.entries, m.index) && RaftNode.HandleAppend(State(), m).Ok?
      modifies this
      ensures Did(RaftNode.HandleAppend(old(State()), m))
    {
      hide RaftNode.FindConflictByTerm, RaftNode.AppendFrom, Follows;
      if m.index < committed {
        msgs := msgs + {AppendResp(id, m.from, term, committed, false, 0, 0, committed)};
      } else if TermAt(log, m.index) != m.logTerm {
        var hint, t := FindConflictByTerm(Min(m.index, |log|), m.logTerm);
        msgs := msgs + {AppendResp(id, m.from, term, m.index, true, hint, t.value, committed)};
      } else {
        AppendFrom(m.index, m.entries);
        var last := m.index + |m.entries|;
        CommitTo(Min(m.commit, last));
        KeepsIdentity(old(State()), m);
        msgs := msgs + {AppendResp(id, m.from, term, last, false, 0, 0, committed)};
      }
    }

    /** Taking entries and committing leaves identity and term alone. */
    lemma KeepsIdentity(n: Node, m: Msg)
      requires m.Append? && Follows(m.entries, m.index)
      ensures var r := RaftNode.AppendFrom(n, m.index, m.entries);
              r.Ok? ==> r.node.id == n.id && r.node.term == n.term
    {
    }

    method HandleHeartbeat(m: Msg)
      requires m.Heartbeat? && RaftNode.HandleHeartbeat(State(), m).Ok?
      modifies this
      ensures Did(RaftNode.HandleHeartbeat(old(State()), m))
    {
      CommitTo(m.commit);
      msgs := msgs + {HeartbeatResp(id, m.from, term, committed, m.ctx)};
    }

    // ----- leading

    method Acknowledge(from: Id, index: nat) returns (moved: bool)
      modifies this
      ensures State() == RaftNode.Acknowledge(old(State()), from, index) && msgs == old(msgs)
      ensures moved <==> State() != old(State())
    {
      moved := from in matched && matched[from] < index;
      if moved {
        matched := matched[from := index];
      }
    }

    method HandleAppendResponse(m: Msg, mci: nat)
      requires m.AppendResp?
      modifies this
      ensures State() == RaftNode.HandleAppendResponse(old(State()), m, mci) && msgs == old(msgs)
    {
      if m.reject {
        return;
      }
      var moved := Acknowledge(m.from, m.index);
      if moved {
        MaybeCommitAt(mci, term);
      }
    }

    method OnPersist(index: nat, mci: nat)
      modifies this
      ensures State() == PersistTo(old(State()), index, mci) && msgs == old(msgs)
    {
      if index <= persisted {
        return;
      }
      persisted := index;
      if role == Leader {
        var moved := Acknowledge(id, index);
        if moved {
          MaybeCommitAt(mci, term);
        }
      }
    }

    method Respond(from: Id, ctx: Ctx, index: nat)
      modifies this
      ensures State() == RaftNode.Respond(old(State()), from, ctx, index).0
      ensures msgs == old(msgs) + RaftNode.Respond(old(State()), from, ctx, index).1
    {
      if from == NONE || from == id {
        readStates := readStates + [ReadState(index, ctx)];
      } else {
        msgs := msgs + {ReadIndexResp(id, from, term, index, ctx)};
      }
    }

    /** Answers the released reads in order. */
    method RespondAll(released: seq<Ctx>, pending: map<Ctx, ReadStatus>)
      requires forall c :: c in released ==> c in pending
      modifies this
      ensures State() == RaftNode.RespondAll(old(State()), released, pending).0
      ensures msgs == old(msgs) + RaftNode.RespondAll(old(State()), released, pending).1
    {
      var i := 0;
      assert released[0..] == released;
      while i < |released|
        invariant 0 <= i <= |released|
        invariant RaftNode.RespondAll(old(State()), released, pending).0 == RaftNode.RespondAll(State(), released[i..], pending).0
        invariant old(msgs) + RaftNode.RespondAll(old(State()), released, pending).1 ==
                  msgs + RaftNode.RespondAll(State(), released[i..], pending).1
      {
        assert released[i..][0] == released[i] && released[i..][1..] == released[i + 1..];
        var st := pending[released[i]];
        Respond(st.from, released[i], st.index);
        i := i + 1;
      }
    }

    method HandleHeartbeatResponse(m: Msg)
      requires m.HeartbeatResp? && RaftNode.HandleHeartbeatResponse(g, State(), m).Ok?
      modifies this
      ensures Did(RaftNode.HandleHeartbeatResponse(g, old(State()), m))
    {
      hide JointVote, RaftNode.RespondAll, RecvAck, Released, Advance, CanAdvance;
      if m.from !in matched || m.ctx == [] {
        return;
      }
      waiting := RecvAck(waiting, m.from, m.ctx);
      if m.ctx !in waiting.pending {
        return;
      }
      var r := CountJoint(g.cfg, YesFrom(waiting.pending[m.ctx].acks));
      if r == Won {
        ReleasedPending(waiting, m.ctx);
        var released, pending := Released(waiting, m.ctx), waiting.pending;
        waiting := Advance(waiting, m.ctx);
        RespondAll(released, pending);
      }
    }

    method HandleReadIndex(m: Msg)
      requires m.ReadIndex? && RaftNode.HandleReadIndex(g, State(), m).Ok?
      modifies this
      ensures Did(RaftNode.HandleReadIndex(g, old(State()), m))
    {
      if !CommittedInTerm(State()) {
        return;
      }
      if IsSingleton(g.cfg) {
        Respond(m.from, m.ctx, committed);
      } else {
        waiting := AddRequest(waiting, committed, m.from, m.ctx, id);
      }
    }

    // ----- the step function

    method StepFollower(m: Msg)
      requires WellFormed(m) && RaftNode.StepFollower(g, State(), m).Ok?
      modifies this
      ensures Did(RaftNode.StepFollower(g, old(State()), m))
    {
      hide RaftNode.HandleAppend, RaftNode.HandleHeartbeat;
      match m {
        case Append(from, _, _, _, _, _, _) =>
          leaderId := from;
          HandleAppend(m);
        case Heartbeat(from, _, _, _, _) =>
          leaderId := from;
          HandleHeartbeat(m);
        case ReadIndex(from, _, ctx) =>
          if leaderId != NONE {
            msgs := msgs + {ReadIndex(if from == NONE then id else from, leaderId, ctx)};
          }
        case ReadIndexResp(_, _, t, index, ctx) =>
          readStates := readStates + [ReadState(index, ctx)];
          MaybeCommitAt(index, t);
        case _ =>
      }
    }

    method StepCandidate(m: Msg)
      requires WellFormed(m) && RaftNode.StepCandidate(g, State(), m).Ok?
      modifies this
      ensures Did(RaftNode.StepCandidate(g, old(State()), m))
    {
      hide RaftNode.HandleAppend, RaftNode.HandleHeartbeat, RaftNode.HandleVoteResponse;
      match m {
        case Append(from, _, t, _, _, _, _) =>
          BecomeFollower(t, from);
          HandleAppend(m);
        case Heartbeat(from, _, t, _, _) =>
          BecomeFollower(t, from);
          HandleHeartbeat(m);
        case VoteResp(_, _, _, _, _, _, _) => HandleVoteResponse(m);
        case _ =>
      }
    }

    method StepLeader(m: Msg, mci: nat)
      requires WellFormed(m) && RaftNode.StepLeader(g, State(), m, mci).Ok?
      modifies this
      ensures Did(RaftNode.StepLeader(g, old(State()), m, mci))
    {
      hide RaftNode.HandleAppendResponse, RaftNode.HandleHeartbeatResponse, RaftNode.HandleReadIndex;
      match m {
        case AppendResp(_, _, _, _, _, _, _, _) => HandleAppendResponse(m, mci);
        case HeartbeatResp(_, _, _, _, _) => HandleHeartbeatResponse(m);
        case ReadIndex(_, _, _) => HandleReadIndex(m);
        case _ =>
      }
    }

    method Dispatch(m: Msg, mci: nat)
      requires WellFormed(m) && RaftNode.Dispatch(g, State(), m, mci).Ok?
      modifies this
      ensures Did(RaftNode.Dispatch(g, old(State()), m, mci))
    {
      hide RaftNode.HandleVoteRequest, RaftNode.StepFollower, RaftNode.StepLeader, RaftNode.StepCandidate;
      if m.RequestVote? {
        HandleVoteRequest(m);
      } else if role == Follower {
        StepFollower(m);
      } else if role == Leader {
        StepLeader(m, mci);
      } else {
        StepCandidate(m);
      }
    }

    /** Handles a message: a later term makes the node a follower, an earlier one is answered or ignored. */
    method Step(m: Msg, mci: nat)
      requires WellFormed(m) && RaftNode.Step(g, State(), m, mci).Ok?
      modifies this
      ensures Did(RaftNode.Step(g, old(State()), m, mci))
    {
      hide RaftNode.Dispatch;
      if m.ReadIndex? || m.term == 0 {
        Dispatch(m, mci);
      } else if m.term < term {
        if (m.Heartbeat? || m.Append?) && (g.checkQuorum || g.preVote) {
          msgs := msgs + {AppendResp(id, m.from, term, 0, false, 0, 0, 0)};
        } else if m.RequestVote? && m.pre {
          msgs := msgs + {VoteResp(id, m.from, term, true, true, 0, 0)};
        }
      } else {
        if m.term > term && !(m.RequestVote? && m.pre) && !(m.VoteResp? && m.pre && !m.reject) {
          BecomeFollower(m.term, if m.Append? || m.Heartbeat? then m.from else NONE);
        }
        Dispatch(m, mci);
      }
    }
  }

  function RequestsTo(n: Node, voters: set<Id>, pre: bool, t: nat): set<Msg> {
    set v | v in voters :: VoteRequest(n, v, pre, t)
  }

  lemma OneMoreRequest(n: Node, voters: set<Id>, v: Id, pre: bool, t: nat)
    ensures RequestsTo(n, voters + {v}, pre, t) == RequestsTo(n, voters, pre, t) + {VoteRequest(n, v, pre, t)}
  {
  }

  lemma AllRequests(g: Group, n: Node, pre: bool, t: nat)
    ensures RequestsTo(n, Voters(g.cfg) - {n.id}, pre, t) == VoteRequests(g, n, pre, t)
  {
  }
}
