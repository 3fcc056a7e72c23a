/** What a node answers to a vote request, and what the answers make of a candidate
    (raft-rs/src/raft.rs, raft-rs/src/raft_log.rs). */
module VoteAnswers {
  import opened Types
  import opened Quorum
  import opened RaftNode

  /** The log that ends in entry `index` of term `term` is no older than `log`: it ends in a later term, or in
      the same one and is no shorter. */
  predicate NoOlder(index: nat, term: nat, log: seq<Entry>) {
    log != [] ==> var last := log[|log| - 1].term; term > last || (term == last && index >= |log|)
  }

  /** The term of the last entry, or zero. */
  function EndTerm(log: seq<Entry>): nat {
    if log == [] then 0 else log[|log| - 1].term
  }

  /** Nobody else has the vote that the message asks for: a later term starts without a vote, and in the
      node's own term it must not have been given to another, nor a leader be known. */
  predicate VoteIsFree(n: Node, m: Msg)
    requires m.RequestVote?
  {
    m.term > n.term || n.vote == m.from || (n.vote == NONE && n.leaderId == NONE)
  }

  /** The sender's log is no older, and unless it is longer, its priority is no lower. */
  predicate Eligible(n: Node, m: Msg)
    requires m.RequestVote?
  {
    NoOlder(m.lastIndex, m.lastTerm, n.log) && (m.lastIndex > |n.log| || m.priority >= n.priority)
  }

  /** The commit index of a node that does not lead once a vote message has told it that index `commit` is
      committed with that term: it takes the index over exactly if its own log has the term there. */
  function ToldCommit(n: Node, commit: nat, commitTerm: nat): nat {
    if n.committed < commit <= |n.log| && n.log[commit - 1].term == commitTerm > 0 then commit else n.committed
  }

  /** A vote is granted, and recorded, exactly if it is free and the sender eligible; every other request
      is refused with the node's commit index and its term, and leaves the vote alone. */
  lemma VoteAnswered(g: Group, n: Node, m: Msg, mci: nat)
    requires m.RequestVote? && !m.pre && m.term >= n.term && m.term > 0
    ensures Step(g, n, m, mci).Ok?
    ensures var r := Step(g, n, m, mci);
            && r.node.term == m.term && r.node.log == n.log && r.node.persisted == n.persisted
            && r.node.id == n.id && r.node.priority == n.priority && (m.term > n.term ==> r.node.role == Follower)
            && if VoteIsFree(n, m) && Eligible(n, m)
               then
                 && r.node.vote == m.from && r.node.committed == n.committed
                 && r.out == {VoteResp(n.id, m.from, m.term, false, false, 0, 0)}
               else
                 && r.out == {VoteResp(n.id, m.from, m.term, false, true, n.committed, TermAt(n.log, n.committed))}
                 && r.node.committed == (if n.role == Leader && m.term == n.term then n.committed else ToldCommit(n, m.commit, m.commitTerm))
                 && r.node.vote == if m.term > n.term then NONE else n.vote
  {
    var x := CatchUp(n, m);
    assert x.log == n.log && x.priority == n.priority && x.committed == n.committed && x.term == m.term && x.id == n.id;
    assert Grants(x, m) <==> VoteIsFree(n, m) && Eligible(n, m);
    hide Grants;
    CommitByVoteKeepsTerm(x, m.commit, m.commitTerm);
    VoteMessageCommits(x, m.commit, m.commitTerm);
  }

  lemma CommitByVoteKeepsTerm(n: Node, commit: nat, commitTerm: nat)
    ensures var n' := MaybeCommitByVote(n, commit, commitTerm);
            && n'.term == n.term && n'.vote == n.vote && n'.log == n.log && n'.persisted == n.persisted
            && n'.id == n.id && n'.priority == n.priority && (n.role == Follower ==> n'.role == Follower)
  {
  }

  /** A pre-vote is granted exactly if a vote would be, and changes nothing; a refusal carries the node's own
      term. */
  lemma PreVoteAnswered(g: Group, n: Node, m: Msg, mci: nat)
    requires m.RequestVote? && m.pre && m.term >= n.term && m.term > 0
    ensures var r := Step(g, n, m, mci);
            if VoteIsFree(n, m) && Eligible(n, m)
            then r == Ok(n, {VoteResp(n.id, m.from, m.term, true, false, 0, 0)})
            else if n.term == 0 then r.Panic?
            else
              && r.Ok? && r.node.term == n.term && r.node.vote == n.vote && r.node.log == n.log
              && r.out == {VoteResp(n.id, m.from, n.term, true, true, n.committed, TermAt(n.log, n.committed))}
              && r.node.committed == if n.role == Leader then n.committed else ToldCommit(n, m.commit, m.commitTerm)
  {
    assert Grants(n, m) <==> VoteIsFree(n, m) && Eligible(n, m);
    hide Grants;
    CommitByVoteKeepsTerm(n, m.commit, m.commitTerm);
    VoteMessageCommits(n, m.commit, m.commitTerm);
  }

  /** A request of an earlier term is refused in the node's own term if it is for a pre-vote, and ignored
      otherwise. */
  lemma StaleRequestAnswered(g: Group, n: Node, m: Msg, mci: nat)
    requires m.RequestVote? && 0 < m.term < n.term
    ensures Step(g, n, m, mci) == Ok(n, if m.pre then {VoteResp(n.id, m.from, n.term, true, true, 0, 0)} else {})
  {
  }

  /** Of two logs, each is no older than the other, or one of them is not. */
  lemma OneIsNoOlder(a: seq<Entry>, b: seq<Entry>)
    ensures NoOlder(|a|, EndTerm(a), b) || NoOlder(|b|, EndTerm(b), a)
  {
  }

  /** So of two voters of equal priority, at least one would vote for the other in any later term. */
  lemma OneVotesForTheOther(g: Group, x: Node, y: Node, term: nat, mci: nat)
    requires term > x.term && term > y.term && x.priority == y.priority
    ensures var toX, toY := VoteRequest(y, x.id, false, term), VoteRequest(x, y.id, false, term);
            || (Step(g, x, toX, mci).Ok? && Step(g, x, toX, mci).node.vote == y.id
                && Step(g, x, toX, mci).out == {VoteResp(x.id, y.id, term, false, false, 0, 0)})
            || (Step(g, y, toY, mci).Ok? && Step(g, y, toY, mci).node.vote == x.id
                && Step(g, y, toY, mci).out == {VoteResp(y.id, x.id, term, false, false, 0, 0)})
  {
    hide Step;
    OneIsNoOlder(x.log, y.log);
    VoteAnswered(g, x, VoteRequest(y, x.id, false, term), mci);
    VoteAnswered(g, y, VoteRequest(x, y.id, false, term), mci);
  }

  /** The log of `x` ends in a later term, but it is no longer than that of `y`, and its priority is lower. */
  predicate Blocks(x: Node, y: Node) {
    EndTerm(x.log) > EndTerm(y.log) && |x.log| <= |y.log| && x.priority < y.priority
  }

  /** With different priorities there are voters of which neither ever votes for the other: exactly those of
      which one has the later entry, but no more of them, and the lower priority. */
  lemma NeitherVotesExactly(g: Group, x: Node, y: Node, term: nat, mci: nat)
    requires term > x.term && term > y.term
    ensures var toX, toY := VoteRequest(y, x.id, false, term), VoteRequest(x, y.id, false, term);
            && Step(g, x, toX, mci).Ok? && Step(g, y, toY, mci).Ok?
            && (VoteResp(x.id, y.id, term, false, false, 0, 0) !in Step(g, x, toX, mci).out
                && VoteResp(y.id, x.id, term, false, false, 0, 0) !in Step(g, y, toY, mci).out
                <==> Blocks(x, y) || Blocks(y, x))
  {
    hide Step;
    VoteAnswered(g, x, VoteRequest(y, x.id, false, term), mci);
    VoteAnswered(g, y, VoteRequest(x, y.id, false, term), mci);
  }

  // ----- campaigns

  /** What a node with the log and commit index of `n` asks voter `v` for. */
  function AskFor(n: Node, v: Id, term: nat, pre: bool): Msg {
    RequestVote(n.id, v, term, pre, |n.log|, EndTerm(n.log), n.committed, TermAt(n.log, n.committed), n.priority)
  }

  /** The messages ask every other voter, and nobody else. */
  ghost predicate AsksAll(g: Group, n: Node, term: nat, pre: bool, out: set<Msg>) {
    forall m :: m in out <==> exists v :: v in Voters(g.cfg) && v != n.id && m == AskFor(n, v, term, pre)
  }

  /** With no vote against it a campaign is not lost. */
  lemma OwnVoteNotLost(g: Group, id: Id)
    ensures JointVote(g.cfg, map[id := true]) != Lost
  {
    YesOrMissing(g.cfg.incoming, id);
    YesOrMissing(g.cfg.outgoing, id);
  }

  lemma YesOrMissing(voters: set<Id>, id: Id)
    ensures MajorityVote(voters, map[id := true]) != Lost
  {
    var y, m := Yes(voters, map[id := true]), Missing(voters, map[id := true]);
    assert y !! m && y + m == voters;
    assert |y + m| == |y| + |m|;
  }

  /** A timeout makes a node that does not lead ask every other voter for its vote in the next term, with
      the end of its own log; if it asks for a pre-vote first, it keeps its term and vote. A node whose own
      vote decides leads at once. */
  lemma TimeoutAsks(g: Group, n: Node, pre: bool)
    requires n.role != Leader
    ensures JointVote(g.cfg, map[n.id := true]) != Won ==> Hup(g, n, pre).Ok? && Asking(g, n, pre, Hup(g, n, pre))
    ensures JointVote(g.cfg, map[n.id := true]) == Won && n.persisted == |n.log| ==>
              Hup(g, n, pre).Ok? && Hup(g, n, pre).out == {} && LeadsNext(n, n.term + 1, Hup(g, n, pre).node)
  {
    if pre {
      PreCampaignAsks(g, n);
    } else {
      CampaignAsks(g, n);
    }
    hide JointVote, Asking, LeadsNext, Campaign, PreCampaign;
  }

  /** The node asks every other voter for its vote in the next term, or for a pre-vote. */
  ghost predicate Asking(g: Group, n: Node, pre: bool, r: Outcome) {
    && r.Ok? && AsksAll(g, n, n.term + 1, pre, r.out)
    && r.node.votes == map[n.id := true] && r.node.leaderId == NONE
    && r.node.log == n.log && r.node.committed == n.committed && r.node.persisted == n.persisted
    && r.node.id == n.id && r.node.priority == n.priority && r.node.matched.Keys == n.matched.Keys
    && (if pre then r.node.role == PreCandidate && r.node.term == n.term && r.node.vote == n.vote
        else r.node.role == Candidate && r.node.term == n.term + 1 && r.node.vote == n.id)
  }

  lemma RequestsAsk(g: Group, n: Node, c: Node, term: nat, pre: bool)
    requires c.id == n.id && c.log == n.log && c.committed == n.committed && c.priority == n.priority
    ensures AsksAll(g, n, term, pre, VoteRequests(g, c, pre, term))
  {
  }

  /** A candidate before anyone has answered. */
  function NewCandidate(n: Node): (c: Node)
    ensures c.id == n.id && c.log == n.log && c.committed == n.committed && c.priority == n.priority && c.persisted == n.persisted
    ensures c.votes == map[n.id := true] && c.leaderId == NONE && c.role == Candidate && c.term == n.term + 1 && c.vote == n.id
    ensures c.matched.Keys == n.matched.Keys
  {
    WithVote(BecomeCandidate(n), n.id, true)
  }

  lemma CampaignAsks(g: Group, n: Node)
    ensures JointVote(g.cfg, map[n.id := true]) != Won ==> Campaign(g, n).Ok? && Asking(g, n, false, Campaign(g, n))
    ensures JointVote(g.cfg, map[n.id := true]) == Won && n.persisted == |n.log| ==>
              Campaign(g, n).Ok? && Campaign(g, n).out == {} && LeadsNext(n, n.term + 1, Campaign(g, n).node)
  {
    OwnVoteNotLost(g, n.id);
    RequestsAsk(g, n, NewCandidate(n), n.term + 1, false);
    CampaignLeadsNext(g, n);
    hide JointVote, VoteRequests, AsksAll, LeadsNext, BecomeLeader, BecomeFollower;
    var c := NewCandidate(n);
    assert c == WithVote(BecomeCandidate(n), n.id, true);
    hide BecomeCandidate, WithVote, NewCandidate;
  }

  lemma CampaignLeadsNext(g: Group, n: Node)
    ensures n.persisted == |n.log| ==>
              BecomeLeader(NewCandidate(n)).Ok? && BecomeLeader(NewCandidate(n)).out == {}
              && LeadsNext(n, n.term + 1, BecomeLeader(NewCandidate(n)).node)
  {
  }

  lemma PreCampaignAsks(g: Group, n: Node)
    ensures JointVote(g.cfg, map[n.id := true]) != Won ==> PreCampaign(g, n).Ok? && Asking(g, n, true, PreCampaign(g, n))
    ensures JointVote(g.cfg, map[n.id := true]) == Won && n.persisted == |n.log| ==>
              PreCampaign(g, n).Ok? && PreCampaign(g, n).out == {} && LeadsNext(n, n.term + 1, PreCampaign(g, n).node)
  {
    OwnVoteNotLost(g, n.id);
    var c := WithVote(BecomePreCandidate(n), n.id, true);
    assert c.votes == map[n.id := true];
    RequestsAsk(g, n, c, n.term + 1, true);
    CampaignAsks(g, c);
    SameLeadsNext(n, c, Campaign(g, c));
    hide JointVote, Campaign, VoteRequests, AsksAll, LeadsNext, BecomeFollower;
  }

  lemma SameLeadsNext(n: Node, c: Node, r: Outcome)
    requires c == n.(role := c.role, votes := c.votes, leaderId := c.leaderId)
    ensures r.Ok? && LeadsNext(c, n.term + 1, r.node) ==> LeadsNext(n, n.term + 1, r.node)
  {
  }

  /** The node leads the term, with one empty entry behind the log of `n`, and knows of no acknowledgement but
      its own. */
  predicate LeadsNext(n: Node, term: nat, n': Node) {
    && n'.role == Leader && n'.term == term && n'.leaderId == n.id && n'.vote == n.id && n'.id == n.id && n'.priority == n.priority
    && n'.log == n.log + [Entry(EntryNormal, term, |n.log| + 1, [], [])]
    && n'.matched.Keys == n.matched.Keys
    && (forall p :: p in n'.matched ==> n'.matched[p] == if p == n.id then n.persisted else 0)
    && n'.committed == n.committed && n'.persisted == n.persisted
  }

  /** The voters that are known to have voted yes once `from` has answered. */
  function YesVoters(g: Group, n: Node, from: Id, granted: bool): set<Id> {
    set v | v in Voters(g.cfg) && (if v in n.votes then n.votes[v] else v == from && granted)
  }

  /** Those whose answer is still missing. */
  function Silent(g: Group, n: Node, from: Id): set<Id> {
    set v | v in Voters(g.cfg) && v !in n.votes && v != from
  }

  lemma YesVotersAre(g: Group, n: Node, from: Id, granted: bool)
    ensures Yes(Voters(g.cfg), RecordVote(n.votes, from, granted)) == YesVoters(g, n, from, granted)
    ensures Missing(Voters(g.cfg), RecordVote(n.votes, from, granted)) == Silent(g, n, from)
  {
  }

  /** A vote is lost exactly if not even all missing answers could still win it. */
  lemma LostExactly(cfg: JointConfig, votes: Votes)
    ensures JointVote(cfg, votes) == Lost <==> !IsQuorum(cfg, Yes(Voters(cfg), votes) + Missing(Voters(cfg), votes))
  {
    LostHalf(cfg.incoming, Voters(cfg), votes);
    LostHalf(cfg.outgoing, Voters(cfg), votes);
  }

  lemma LostHalf(half: set<Id>, voters: set<Id>, votes: Votes)
    requires half <= voters
    ensures MajorityVote(half, votes) == Lost <==> !HasMajority(half, Yes(voters, votes) + Missing(voters, votes))
  {
    var y, m := Yes(half, votes), Missing(half, votes);
    assert half * (Yes(voters, votes) + Missing(voters, votes)) == y + m;
    assert y !! m;
    assert |y + m| == |y| + |m|;
  }

  /** The votes decide by who is known to have voted yes, and by who has not answered. */
  lemma OutcomeIs(g: Group, n: Node, from: Id, granted: bool)
    ensures var o := JointVote(g.cfg, RecordVote(n.votes, from, granted));
            var yes := YesVoters(g, n, from, granted);
            && (o == Won <==> IsQuorum(g.cfg, yes))
            && (o == Lost <==> !IsQuorum(g.cfg, yes + Silent(g, n, from)))
  {
    YesVotersAre(g, n, from, granted);
    WonIsQuorum(g.cfg, RecordVote(n.votes, from, granted));
    LostExactly(g.cfg, RecordVote(n.votes, from, granted));
  }

  /** Whether the answer belongs to the node's own kind of candidacy and term. */
  predicate Answers(n: Node, m: Msg) {
    && m.VoteResp? && m.term > 0
    && if m.pre then n.role == PreCandidate && (if m.reject then m.term == n.term else m.term >= n.term)
       else n.role == Candidate && m.term == n.term
  }

  lemma AnswerIsPolled(g: Group, n: Node, m: Msg, mci: nat)
    requires Answers(n, m) && Poll(g, n, m.from, !m.reject).Ok?
    ensures var p := Poll(g, n, m.from, !m.reject);
            Step(g, n, m, mci) == Ok(MaybeCommitByVote(p.node, m.commit, m.commitTerm), p.out)
  {
    hide Poll, MaybeCommitByVote;
  }

  /** The answer is counted, unless the sender has answered before, and the candidate waits for more. */
  predicate StillAsks(n: Node, m: Msg, n': Node)
    requires m.VoteResp?
  {
    && n' == n.(votes := n'.votes) && n'.votes.Keys == n.votes.Keys + {m.from}
    && forall v :: v in n'.votes ==> n'.votes[v] == if v in n.votes then n.votes[v] else !m.reject
  }

  /** An answer in a candidate's term makes it the leader exactly if a quorum is then known to have voted for
      it, and a follower without a leader exactly if no quorum can any more. */
  lemma AnswerDecides(g: Group, n: Node, m: Msg, mci: nat)
    requires n.role == Candidate && n.vote == n.id && m.VoteResp? && !m.pre && m.term == n.term > 0
    requires n.persisted == |n.log|
    ensures Step(g, n, m, mci).Ok? && Step(g, n, m, mci).out == {}
    ensures var r := Step(g, n, m, mci).node;
            var yes := YesVoters(g, n, m.from, !m.reject);
            && r.term == n.term
            && (IsQuorum(g.cfg, yes) ==> LeadsNext(n, n.term, r))
            && (!IsQuorum(g.cfg, yes) ==> r.committed == ToldCommit(n, m.commit, m.commitTerm))
            && (!IsQuorum(g.cfg, yes) ==> r.role != Leader && r.log == n.log)
            && (!IsQuorum(g.cfg, yes + Silent(g, n, m.from)) && !IsQuorum(g.cfg, yes) ==> r.role == Follower && r.leaderId == NONE)
            && (!IsQuorum(g.cfg, yes) && IsQuorum(g.cfg, yes + Silent(g, n, m.from)) && m.commit <= n.committed ==> StillAsks(n, m, r))
  {
    assert Answers(n, m);
    hide *;
    OutcomeIs(g, n, m.from, !m.reject);
    PollOf(g, n, m);
    AnswerIsPolled(g, n, m, mci);
    CommitByVoteRole(Poll(g, n, m.from, !m.reject).node, m.commit, m.commitTerm);
    VoteMessageCommits(Poll(g, n, m.from, !m.reject).node, m.commit, m.commitTerm);
    if JointVote(g.cfg, RecordVote(n.votes, m.from, !m.reject)) != Won {
      SameToldCommit(n, Poll(g, n, m.from, !m.reject).node, m.commit, m.commitTerm);
    }
  }

  lemma SameToldCommit(n: Node, n': Node, commit: nat, commitTerm: nat)
    requires n'.committed == n.committed && n'.log == n.log
    ensures ToldCommit(n', commit, commitTerm) == ToldCommit(n, commit, commitTerm)
  {
  }

  lemma PollOf(g: Group, n: Node, m: Msg)
    requires m.VoteResp? && n.role == Candidate && n.persisted == |n.log| && n.vote == n.id
    ensures var o := JointVote(g.cfg, RecordVote(n.votes, m.from, !m.reject));
            var r := Poll(g, n, m.from, !m.reject);
            && r.Ok? && r.out == {} && r.node.committed == n.committed && r.node.term == n.term
            && (o == Won ==> LeadsNext(n, n.term, r.node) && r.node.role == Leader)
            && (o != Won ==> r.node.role != Leader && r.node.log == n.log)
            && (o == Lost ==> r.node.role == Follower && r.node.leaderId == NONE)
            && (o == Pending ==> StillAsks(n, m, r.node) && r.node.role == Candidate && r.node.log == n.log)
  {
    hide JointVote;
  }

  lemma PreWon(g: Group, n: Node, from: Id, granted: bool)
    requires n.role == PreCandidate && JointVote(g.cfg, map[n.id := true]) != Won
    requires JointVote(g.cfg, RecordVote(n.votes, from, granted)) == Won
    ensures Asking(g, n, false, Poll(g, n, from, granted)) && Poll(g, n, from, granted).node.committed == n.committed
  {
    var c := WithVote(n, from, granted);
    CampaignAsks(g, c);
    hide JointVote, Campaign;
    assert Poll(g, n, from, granted) == Campaign(g, c);
    hide Poll;
  }

  lemma PreNotWon(g: Group, n: Node, from: Id, granted: bool)
    requires n.role == PreCandidate
    ensures var o := JointVote(g.cfg, RecordVote(n.votes, from, granted));
            var r := Poll(g, n, from, granted);
            && (o == Lost ==> r.Ok? && r.out == {} && r.node.role == Follower && r.node.leaderId == NONE && r.node.term == n.term && r.node.vote == n.vote)
            && (o == Pending ==> r == Ok(n.(votes := RecordVote(n.votes, from, granted)), {}))
  {
    hide JointVote, Campaign;
  }

  lemma PrePollOf(g: Group, n: Node, m: Msg)
    requires n.role == PreCandidate && JointVote(g.cfg, map[n.id := true]) != Won && m.VoteResp?
    ensures var o := JointVote(g.cfg, RecordVote(n.votes, m.from, !m.reject));
            var r := Poll(g, n, m.from, !m.reject);
            && r.Ok? && r.node.committed == n.committed
            && (o == Won ==> Asking(g, n, false, r))
            && (o != Won ==> r.out == {} && r.node.term == n.term && r.node.vote == n.vote)
            && (o == Lost ==> r.node.role == Follower && r.node.leaderId == NONE)
            && (o == Pending ==> StillAsks(n, m, r.node))
  {
    if JointVote(g.cfg, RecordVote(n.votes, m.from, !m.reject)) == Won {
      PreWon(g, n, m.from, !m.reject);
    } else {
      PreNotWon(g, n, m.from, !m.reject);
    }
    hide JointVote, Campaign, Poll, Asking;
  }

  /** An answer to a pre-vote makes the node campaign exactly if a quorum is then known to be willing. */
  lemma PreAnswerDecides(g: Group, n: Node, m: Msg, mci: nat)
    requires n.role == PreCandidate && JointVote(g.cfg, map[n.id := true]) != Won
    requires m.VoteResp? && m.pre && m.term > 0 && (if m.reject then m.term == n.term else m.term >= n.term)
    requires m.commit <= n.committed
    ensures var r := Step(g, n, m, mci);
            var yes := YesVoters(g, n, m.from, !m.reject);
            && (IsQuorum(g.cfg, yes) ==> Asking(g, n, false, r))
            && (!IsQuorum(g.cfg, yes) ==> r.Ok? && r.out == {} && r.node.term == n.term && r.node.vote == n.vote)
            && (!IsQuorum(g.cfg, yes + Silent(g, n, m.from)) && !IsQuorum(g.cfg, yes) ==> r.node.role == Follower && r.node.leaderId == NONE)
            && (!IsQuorum(g.cfg, yes) && IsQuorum(g.cfg, yes + Silent(g, n, m.from)) ==> StillAsks(n, m, r.node))
  {
    assert Answers(n, m);
    CampaignsOk(g, n, Poll(g, n, m.from, !m.reject));
    hide *;
    OutcomeIs(g, n, m.from, !m.reject);
    PrePollOf(g, n, m);
    AnswerIsPolled(g, n, m, mci);
    CommitByVoteRole(Poll(g, n, m.from, !m.reject).node, m.commit, m.commitTerm);
  }

  lemma CampaignsOk(g: Group, n: Node, r: Outcome)
    ensures Asking(g, n, false, r) ==> r.Ok?
  {
  }

  // ----- commits that vote messages carry

  lemma CommitByVoteRole(n: Node, commit: nat, commitTerm: nat)
    ensures var n' := MaybeCommitByVote(n, commit, commitTerm);
            && (n.role == Leader || commit <= n.committed ==> n' == n)
            && (n'.role == n.role || n'.role == Follower) && n'.term == n.term && n'.log == n.log
            && (n.role == Follower ==> n'.role == Follower && n'.leaderId == n.leaderId)
  {
  }

  /** The commit index and term of a vote message commit exactly an entry that the log holds with that
      term, at any node that does not lead. A candidate steps down exactly if a membership change is among what
      it thereby commits, and nothing else changes. */
  lemma VoteMessageCommits(n: Node, commit: nat, commitTerm: nat)
    ensures var n' := MaybeCommitByVote(n, commit, commitTerm);
            var c := ToldCommit(n, commit, commitTerm);
            if n.role == Leader then n' == n
            else
              && n'.committed == c
              && (n.role == Follower || !(exists i :: n.committed <= i < c && IsConfChange(n.log[i])) ==> n' == n.(committed := c))
              && (n.role != Follower && (exists i :: n.committed <= i < c && IsConfChange(n.log[i])) ==>
                    n'.role == Follower && n'.leaderId == NONE && n'.term == n.term && n'.vote == n.vote && n'.log == n.log)
  {
  }
}
