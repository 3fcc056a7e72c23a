/** What a node makes of the appends and heartbeats of a leader, and what it answers (raft-rs/src/raft.rs,
    raft-rs/src/raft_log.rs). */
module AppendAnswers {
  import opened Types
  import opened Quorum
  import opened ReadQueue
  import opened RaftNode
  import opened AppendHandled
  import opened ProbeRuns

  /** The node takes the message as one of the leader of its term. */
  predicate FromLeader(n: Node, m: Msg) {
    (m.Append? || m.Heartbeat?) && m.term > 0 && m.term >= n.term && (m.term > n.term || n.role != Leader)
  }

  /** The node now follows the sender in the message's term; a vote in an earlier term is forgotten. */
  predicate FollowsSender(n: Node, m: Msg, n': Node)
    requires !m.ReadIndex?
  {
    && n'.role == Follower && n'.leaderId == m.from && n'.term == m.term && n'.id == n.id
    && n'.vote == if m.term > n.term then NONE else n.vote
  }

  /** The log holds an entry at `i` with that term; everything holds index zero. */
  predicate Holds(log: seq<Entry>, i: nat, term: nat) {
    if i == 0 then term == 0 else i <= |log| && log[i - 1].term == term
  }

  /** `log'` is `log` with the entries taken over behind `index`: the first `k` of them are there already;
      if any are left, they replace everything that `log` had from there on. */
  predicate TakenOver(log: seq<Entry>, index: nat, ents: seq<Entry>, k: nat, log': seq<Entry>) {
    && index <= |log| && k <= |ents| && index + k <= |log|
    && (forall j :: 0 <= j < k ==> log[index + j].term == ents[j].term)
    && (k < |ents| ==> index + k == |log| || log[index + k].term != ents[k].term)
    && log' == if k == |ents| then log else log[..index + k] + ents[k..]
  }

  /** An append whose anchor matches is taken over, the commit index follows as far as the entries go, and the
      answer acknowledges the last of them. What was persisted no longer counts where it was replaced. */
  lemma AppendTaken(g: Group, n: Node, m: Msg, mci: nat) returns (k: nat)
    requires m.Append? && WellFormed(m) && FromLeader(n, m)
    requires n.committed <= m.index && Holds(n.log, m.index, m.logTerm)
    ensures Step(g, n, m, mci).Ok?
    ensures var n' := Step(g, n, m, mci).node;
            var last := m.index + |m.entries|;
            && FollowsSender(n, m, n')
            && TakenOver(n.log, m.index, m.entries, k, n'.log)
            && n'.persisted == (if k == |m.entries| then n.persisted else Min(n.persisted, m.index + k))
            && n'.committed == Max(n.committed, Min(m.commit, last))
            && Step(g, n, m, mci).out == {AppendResp(n.id, m.from, m.term, last, false, 0, 0, n'.committed)}
  {
    StepIsAppend(g, n, m, mci);
    k := HandleAppendTaken(Following(n, m), m);
    hide Step, HandleAppend, TakenOver;
  }

  /** The node once it has recognised the sender as its leader. */
  function Following(n: Node, m: Msg): Node
    requires m.Append? || m.Heartbeat?
  {
    if m.term == n.term && n.role == Follower then n.(leaderId := m.from) else BecomeFollower(n, m.term, m.from)
  }

  lemma StepIsAppend(g: Group, n: Node, m: Msg, mci: nat)
    requires WellFormed(m) && FromLeader(n, m)
    ensures var x := Following(n, m);
            && Step(g, n, m, mci) == (if m.Append? then HandleAppend(x, m) else HandleHeartbeat(x, m))
            && x.log == n.log && x.committed == n.committed && x.persisted == n.persisted && FollowsSender(n, m, x)
  {
    hide HandleAppend, HandleHeartbeat;
  }

  /** How many of the entries the log holds from the first one on. */
  function Shared(log: seq<Entry>, index: nat, ents: seq<Entry>): (k: nat)
    requires index <= |log|
    ensures k <= |ents| && index + k <= |log|
    ensures forall j :: 0 <= j < k ==> log[index + j].term == ents[j].term
    ensures k < |ents| ==> index + k == |log| || log[index + k].term != ents[k].term
    decreases |ents|
  {
    if ents == [] || index == |log| || log[index].term != ents[0].term then 0
    else 1 + Shared(log, index + 1, ents[1..])
  }

  lemma SharedIsConflict(log: seq<Entry>, index: nat, ents: seq<Entry>)
    requires Follows(ents, index) && index <= |log|
    ensures var k := Shared(log, index, ents); FindConflict(log, ents) == if k == |ents| then 0 else index + k + 1
  {
    FindConflictFirst(log, ents, index);
    var k, ci := Shared(log, index, ents), FindConflict(log, ents);
    hide FindConflict, Shared;
    if k < |ents| {
      assert TermAt(log, index + 1 + k) != ents[k].term;
      assert ci != 0;
    }
    forall j | 0 <= j < k
      ensures TermAt(log, index + 1 + j) == ents[j].term
    {
      assert TermAt(log, index + 1 + j) == log[index + j].term;
    }
  }

  lemma HandleAppendTaken(n: Node, m: Msg) returns (k: nat)
    requires m.Append? && Follows(m.entries, m.index) && n.committed <= m.index && Holds(n.log, m.index, m.logTerm)
    ensures HandleAppend(n, m).Ok?
    ensures var n' := HandleAppend(n, m).node;
            var last := m.index + |m.entries|;
            && n'.role == n.role && n'.leaderId == n.leaderId && n'.term == n.term && n'.id == n.id && n'.vote == n.vote
            && TakenOver(n.log, m.index, m.entries, k, n'.log)
            && n'.persisted == (if k == |m.entries| then n.persisted else Min(n.persisted, m.index + k))
            && n'.committed == Max(n.committed, Min(m.commit, last))
            && HandleAppend(n, m).out == {AppendResp(n.id, m.from, n.term, last, false, 0, 0, n'.committed)}
  {
    HoldsTerm(n.log, m.index, m.logTerm);
    k := Shared(n.log, m.index, m.entries);
    hide *;
    var x := EntriesTaken(n, m.index, m.entries, k);
    TakenOverLength(n.log, m.index, m.entries, k, x.log);
    RaisesTo(x, Min(m.commit, m.index + |m.entries|));
    AppendIs(n, m, x, CommitTo(x, Min(m.commit, m.index + |m.entries|)).node);
  }

  lemma HoldsTerm(log: seq<Entry>, i: nat, term: nat)
    requires Holds(log, i, term)
    ensures i <= |log| && TermAt(log, i) == term
  {
  }

  lemma RaisesTo(n: Node, to: nat)
    requires to <= |n.log|
    ensures CommitTo(n, to).Ok? && CommitTo(n, to).node == n.(committed := Max(n.committed, to))
    ensures Max(n.committed, to) >= 0
  {
  }

  lemma AppendIs(n: Node, m: Msg, x: Node, y: Node)
    requires m.Append? && Follows(m.entries, m.index) && n.committed <= m.index && TermAt(n.log, m.index) == m.logTerm
    requires AppendFrom(n, m.index, m.entries) == Ok(x, {})
    requires CommitTo(x, Min(m.commit, m.index + |m.entries|)).Ok? && y == CommitTo(x, Min(m.commit, m.index + |m.entries|)).node
    ensures HandleAppend(n, m) == Ok(y, {AppendResp(n.id, m.from, n.term, m.index + |m.entries|, false, 0, 0, y.committed)})
  {
    hide TermAt, Follows, AppendFrom, FindConflictByTerm;
  }

  lemma EntriesTaken(n: Node, index: nat, ents: seq<Entry>, k: nat) returns (x: Node)
    requires Follows(ents, index) && n.committed <= index <= |n.log| && k == Shared(n.log, index, ents)
    ensures AppendFrom(n, index, ents) == Ok(x, {}) && TakenOver(n.log, index, ents, k, x.log)
    ensures x == n.(log := x.log, persisted := if k == |ents| then n.persisted else Min(n.persisted, index + k))
  {
    SharedIsConflict(n.log, index, ents);
    assert TakenOver(n.log, index, ents, k, if k == |ents| then n.log else n.log[..index + k] + ents[k..]);
    hide Shared, FindConflict, Follows, TakenOver;
    x := AppendFrom(n, index, ents).node;
  }

  lemma TakenOverLength(log: seq<Entry>, index: nat, ents: seq<Entry>, k: nat, log': seq<Entry>)
    requires TakenOver(log, index, ents, k, log')
    ensures |log'| >= index + |ents|
  {
  }

  /** Whatever is handed over is there: every entry of the message, term by term. */
  lemma TakenOverHolds(log: seq<Entry>, index: nat, ents: seq<Entry>, k: nat, log': seq<Entry>)
    requires TakenOver(log, index, ents, k, log')
    ensures |log'| >= index + |ents| && log'[..index] == log[..index]
    ensures forall j :: 0 <= j < |ents| ==> log'[index + j].term == ents[j].term
  {
    forall j | 0 <= j < |ents| && k < |ents|
      ensures log'[index + j].term == ents[j].term
    {
      if j >= k {
        assert log'[index + j] == ents[k..][j - k];
      }
    }
  }

  /** An append with an anchor that the log does not hold is refused; the answer carries the anchor and, as a
      hint, the greatest index up to it whose term is at most the anchor's. */
  lemma AppendRefused(g: Group, n: Node, m: Msg, mci: nat) returns (hint: nat)
    requires m.Append? && WellFormed(m) && FromLeader(n, m)
    requires n.committed <= m.index && TermAt(n.log, m.index) != m.logTerm
    ensures Step(g, n, m, mci).Ok?
    ensures var n' := Step(g, n, m, mci).node;
            && FollowsSender(n, m, n') && n'.log == n.log && n'.committed == n.committed && n'.persisted == n.persisted
            && Step(g, n, m, mci).out == {AppendResp(n.id, m.from, m.term, m.index, true, hint, TermAt(n.log, hint), n.committed)}
    ensures hint <= Min(m.index, |n.log|) && TermAt(n.log, hint) <= m.logTerm
    ensures forall i :: hint < i <= Min(m.index, |n.log|) ==> TermAt(n.log, i) > m.logTerm
  {
    StepIsAppend(g, n, m, mci);
    FoundByTerm(n.log, Min(m.index, |n.log|), m.logTerm);
    hint := FindConflictByTerm(n.log, Min(m.index, |n.log|), m.logTerm).0;
    hide Step, FindConflictByTerm, AppendFrom;
  }

  /** An anchor of term zero past the end of the log counts as matching: without entries it is acknowledged,
      and commits what the log holds; with entries, or a commit past the log, the node fails. */
  lemma AppendPastEnd(g: Group, n: Node, m: Msg, mci: nat)
    requires m.Append? && WellFormed(m) && FromLeader(n, m)
    requires n.committed <= m.index && m.index > |n.log| && m.logTerm == 0
    ensures var r := Step(g, n, m, mci);
            var to := Min(m.commit, m.index);
            if m.entries != [] || (to > n.committed && to > |n.log|) then r.Panic?
            else
              && r.Ok? && FollowsSender(n, m, r.node) && r.node.log == n.log && r.node.committed == Max(n.committed, to)
              && r.out == {AppendResp(n.id, m.from, m.term, m.index, false, 0, 0, r.node.committed)}
  {
    StepIsAppend(g, n, m, mci);
    PastEndConflict(n.log, m.index, m.entries);
    hide Step, FindConflict, FindConflictByTerm, Follows;
  }

  lemma PastEndConflict(log: seq<Entry>, index: nat, ents: seq<Entry>)
    requires Follows(ents, index) && index > |log|
    ensures FindConflict(log, ents) == if ents == [] then 0 else index + 1
  {
  }

  /** An append anchored below the commit index is answered with the commit index. */
  lemma AppendBehind(g: Group, n: Node, m: Msg, mci: nat)
    requires m.Append? && WellFormed(m) && FromLeader(n, m) && m.index < n.committed
    ensures Step(g, n, m, mci) == Ok(Following(n, m), {AppendResp(n.id, m.from, m.term, n.committed, false, 0, 0, n.committed)})
    ensures FollowsSender(n, m, Following(n, m)) && Following(n, m).log == n.log && Following(n, m).committed == n.committed
  {
    StepIsAppend(g, n, m, mci);
  }

  /** A heartbeat commits what it says, and is answered with its context; it fails exactly if the commit
      index lies past both the node's own and its log. */
  lemma HeartbeatTaken(g: Group, n: Node, m: Msg, mci: nat)
    requires m.Heartbeat? && FromLeader(n, m)
    ensures Step(g, n, m, mci).Panic? <==> m.commit > n.committed && m.commit > |n.log|
    ensures var r := Step(g, n, m, mci);
            r.Ok? ==>
              && FollowsSender(n, m, r.node) && r.node.log == n.log && r.node.persisted == n.persisted
              && r.node.committed == Max(n.committed, m.commit)
              && r.out == {HeartbeatResp(n.id, m.from, m.term, r.node.committed, m.ctx)}
  {
    StepIsAppend(g, n, m, mci);
    hide Step;
  }

  /** Appends and heartbeats of an earlier term change nothing; the sender is told the later term if the
      group uses pre-votes or checks its quorum. */
  lemma StaleLeaderAnswered(g: Group, n: Node, m: Msg, mci: nat)
    requires (m.Append? || m.Heartbeat?) && WellFormed(m) && 0 < m.term < n.term
    ensures Step(g, n, m, mci) ==
            Ok(n, if g.preVote || g.checkQuorum then {AppendResp(n.id, m.from, n.term, 0, false, 0, 0, 0)} else {})
  {
  }

  // ----- terms

  /** Any message of a later term, but for a request for a pre-vote or a pre-vote that is granted, makes its
      receiver a follower in that term, without a vote unless the message asks for one and gets it. */
  lemma LaterTermFollows(g: Group, n: Node, m: Msg, mci: nat)
    requires WellFormed(m) && !m.ReadIndex? && m.term > n.term && Step(g, n, m, mci).Ok?
    requires !(m.RequestVote? && m.pre) && !(m.VoteResp? && m.pre && !m.reject)
    ensures var n' := Step(g, n, m, mci).node;
            && n'.role == Follower && n'.term == m.term
            && n'.vote == (if m.RequestVote? && VoteResp(n.id, m.from, m.term, false, false, 0, 0) in Step(g, n, m, mci).out then m.from else NONE)
            && (!m.RequestVote? ==> n'.leaderId == if m.Append? || m.Heartbeat? then m.from else NONE)
  {
    if m.Append? || m.Heartbeat? {
      LaterLeaderFollowed(g, n, m, mci);
    } else {
      hide HandleAppend, HandleHeartbeat, HandleVoteResponse, HandleHeartbeatResponse, Grants, MaybeCommitByVote;
      CommitByVoteStays(CatchUp(n, m), if m.RequestVote? || m.VoteResp? then m.commit else 0, if m.RequestVote? || m.VoteResp? then m.commitTerm else 0);
    }
  }

  lemma CommitByVoteStays(n: Node, commit: nat, commitTerm: nat)
    requires n.role == Follower
    ensures var n' := MaybeCommitByVote(n, commit, commitTerm);
            n'.role == Follower && n'.term == n.term && n'.vote == n.vote && n'.leaderId == n.leaderId
  {
  }

  lemma LaterLeaderFollowed(g: Group, n: Node, m: Msg, mci: nat)
    requires WellFormed(m) && (m.Append? || m.Heartbeat?) && m.term > n.term && Step(g, n, m, mci).Ok?
    ensures FollowsSender(n, m, Step(g, n, m, mci).node)
  {
    StepIsAppend(g, n, m, mci);
    var x := Following(n, m);
    hide Step, FindConflict, FindConflictByTerm, Follows, AppendFrom, Following;
    if m.Append? {
      AppendFromStays(x, m.index, m.entries);
    }
  }

  lemma AppendFromStays(n: Node, index: nat, ents: seq<Entry>)
    requires Follows(ents, index)
    ensures var r := AppendFrom(n, index, ents);
            r.Ok? ==> r.node == n.(log := r.node.log, persisted := r.node.persisted)
  {
    hide FindConflict, Follows;
  }

  /** Any other message of an earlier term is ignored. */
  lemma StaleIgnored(g: Group, n: Node, m: Msg, mci: nat)
    requires WellFormed(m) && !m.ReadIndex? && 0 < m.term < n.term && !m.Append? && !m.Heartbeat? && !(m.RequestVote? && m.pre)
    ensures Step(g, n, m, mci) == Ok(n, {})
  {
  }

  /** Messages that do not concern a node's role are ignored: answers by whoever is not the one that asked,
      a leader's messages by a leader, and reads by a candidate. */
  lemma NotConcerned(g: Group, n: Node, m: Msg, mci: nat)
    requires WellFormed(m) && (m.ReadIndex? || m.term == n.term > 0)
    requires match n.role
             case Follower => m.VoteResp? || m.AppendResp? || m.HeartbeatResp?
             case Leader => m.VoteResp? || m.Append? || m.Heartbeat? || m.ReadIndexResp?
             case _ => m.AppendResp? || m.HeartbeatResp? || m.ReadIndex? || m.ReadIndexResp? || (m.VoteResp? && m.pre != (n.role == PreCandidate))
    ensures Step(g, n, m, mci) == Ok(n, {})
  {
  }

  /** A leader may send every other peer a heartbeat that commits what both have, with the context of its latest
      pending read or with none. */
  lemma HeartbeatAllowed(g: Group, n: Node, to: Id)
    requires n.role == Leader && to in n.matched && to != n.id && ReadsOk(n.waiting)
    ensures var ctx := if n.waiting.queue == [] then [] else n.waiting.queue[|n.waiting.queue| - 1];
            LeaderMay(g, n, Heartbeat(n.id, to, n.term, Min(n.matched[to], n.committed), ctx))
  {
  }
}
