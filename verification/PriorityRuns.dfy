/** A run that leaves two of three voters with priorities and logs by which neither can ever elect the other. */
module PriorityRuns {
  import opened Types
  import opened Quorum
  import opened RaftNode
  import opened Cluster
  import opened VoteAnswers
  import opened Progress
  import StaleReads

  /** Node 1 has the higher priority. */
  function Fresh(id: Id): Node {
    FreshNode(id, {1, 2, 3}, if id == 1 then 1 else 0)
  }

  const START: State := State(map[1 := Fresh(1), 2 := Fresh(2), 3 := Fresh(3)], {}, {}, map[], {})

  lemma MayElect(a: Id, b: Id, s: State)
    requires a in {1, 2, 3} && b in {1, 2, 3} && a != b && s.nodes.Keys == {1, 2, 3}
    requires s.nodes[a].log == [] && s.nodes[b].log == [] && s.nodes[b].priority <= s.nodes[a].priority
    ensures Backed(StaleReads.THREE, s, a, {a, b})
  {
    StaleReads.TwoDecide(a, b);
    hide IsQuorum, JointVote;
  }

  /** Neither of the nodes gets the other's vote in any term that is later for both. */
  ghost predicate NeitherVotes(x: Node, y: Node) {
    forall term: nat, mci: nat :: term > x.term && term > y.term ==>
      && Refuses(x, VoteRequest(y, x.id, false, term), mci) && Refuses(y, VoteRequest(x, y.id, false, term), mci)
  }

  predicate Refuses(x: Node, m: Msg, mci: nat)
    requires m.RequestVote?
  {
    var r := Step(StaleReads.THREE, x, m, mci);
    r.Ok? && VoteResp(x.id, m.from, m.term, false, false, 0, 0) !in r.out
  }

  lemma BlockedNever(x: Node, y: Node)
    requires Blocks(x, y)
    ensures NeitherVotes(x, y)
  {
    hide Step, Blocks;
    forall term: nat, mci: nat | term > x.term && term > y.term
      ensures Refuses(x, VoteRequest(y, x.id, false, term), mci) && Refuses(y, VoteRequest(x, y.id, false, term), mci)
    {
      NeitherVotesExactly(StaleReads.THREE, x, y, term, mci);
    }
  }

  lemma Starting() returns (p: Path)
    ensures PathOk(StaleReads.THREE, p) && Now(p) == START && START.nodes.Keys == {1, 2, 3}
  {
    p := Path([START], []);
    assert START.nodes.Keys == {1, 2, 3};
  }

  /** Node 1 leads with one entry; the others have none. */
  lemma FirstElection() returns (q: Path)
    ensures PathOk(StaleReads.THREE, q) && Now(q).nodes.Keys == {1, 2, 3}
    ensures var ns := Now(q).nodes;
            && |ns[1].log| == 1 && ns[1].log[0].term == ns[1].term && ns[1].priority == 1
            && ns[2].log == [] && ns[3].log == [] && ns[2].priority == 0 && ns[3].priority == 0
  {
    var p := Starting();
    MayElect(1, 2, START);
    hide IsRun, Prolongs, IsQuorum, WinsAlone, Backed, GroupOk;
    var x;
    q, x := Elect(StaleReads.THREE, p, 1, {1, 2});
  }

  /** Then node 2 leads a later term, with one entry too. */
  lemma SecondElection() returns (q: Path)
    ensures PathOk(StaleReads.THREE, q) && 1 in Now(q).nodes && 2 in Now(q).nodes && Blocks(Now(q).nodes[2], Now(q).nodes[1])
  {
    hide IsRun, Prolongs, IsQuorum, WinsAlone, Backed, Voted, LeadsNext, SameLog, GroupOk, Blocks;
    var q1 := FirstElection();
    MayElect(2, 3, Now(q1));
    var x;
    q, x := Elect(StaleReads.THREE, q1, 2, {2, 3});
    assert 1 in Now(q1).nodes && 2 in Now(q1).nodes;
    ElectedBlocks(Now(q1).nodes[2], x, Now(q).nodes[2], Now(q1).nodes[1], Now(q).nodes[1]);
  }

  lemma ElectedBlocks(n: Node, x: Node, n': Node, y: Node, y': Node)
    requires SameLog(n, x) && LeadsNext(x, n'.term, n') && Voted(y, y', n'.term) && y.term < n'.term
    requires n.log == [] && n.priority == 0 && |y.log| == 1 && y.log[0].term == y.term && y.priority == 1
    ensures Blocks(n', y')
  {
  }

  /** Node 1 is elected by node 2, and writes an entry; then node 2 is elected by node 3, and writes one of a later
      term, no further than node 1's. While node 3 is silent, neither of the others gets a vote in any later term,
      although they are a quorum. */
  lemma PrioritiesBlock() returns (run: seq<State>, events: seq<Event>)
    ensures GroupOk(StaleReads.THREE) && IsRun(StaleReads.THREE, run, events) && run != []
    ensures IsQuorum(StaleReads.THREE.cfg, {1, 2})
    ensures var s := run[|run| - 1]; 1 in s.nodes && 2 in s.nodes && NeitherVotes(s.nodes[2], s.nodes[1])
  {
    hide IsRun, IsQuorum, NeitherVotes, Blocks;
    var q := SecondElection();
    StaleReads.TwoDecide(1, 2);
    BlockedNever(Now(q).nodes[2], Now(q).nodes[1]);
    run, events := q.run, q.events;
  }
}
