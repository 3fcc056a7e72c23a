/** From every reachable state the cluster can go on: a quorum of nodes of equal priority can always elect a
    leader among themselves and commit whatever is proposed to it. */
module Progress {
  import opened Types
  import opened Quorum
  import opened ReadQueue
  import opened RaftNode
  import opened History
  import opened Growth
  import opened Invariant
  import opened Moves
  import opened AppendHandled
  import opened StepHandled
  import opened Cluster
  import opened Safety
  import opened VoteAnswers
  import opened AppendAnswers
  import opened CommitProgress

  // ----- going on with a run

  datatype Path = Path(run: seq<State>, events: seq<Event>)

  ghost predicate PathOk(g: Group, p: Path) {
    GroupOk(g) && p.run != [] && IsRun(g, p.run, p.events)
  }

  predicate Prolongs(p: Path, q: Path) {
    p.run <= q.run && p.events <= q.events
  }

  function Now(p: Path): State
    requires p.run != []
  {
    p.run[|p.run| - 1]
  }

  lemma Go(g: Group, p: Path, e: Event, s': State) returns (q: Path)
    requires PathOk(g, p) && Next(g, Now(p), e, s')
    ensures PathOk(g, q) && Prolongs(p, q) && Now(q) == s'
  {
    hide Next, Init;
    q := Path(p.run + [s'], p.events + [e]);
    forall i | 0 <= i < |q.events|
      ensures Next(g, q.run[i], q.events[i], q.run[i + 1])
    {
      if i < |p.events| {
        assert Next(g, p.run[i], p.events[i], p.run[i + 1]);
      }
    }
  }

  lemma ProlongsRefl(p: Path)
    ensures Prolongs(p, p)
  {
  }

  lemma ProlongsTrans(p: Path, q: Path, r: Path)
    requires Prolongs(p, q) && Prolongs(q, r)
    ensures Prolongs(p, r)
  {
  }

  /** Some of what node `id` sent leaves it. */
  lemma Leave(g: Group, p: Path, id: Id, msgs: set<Msg>) returns (q: Path)
    requires PathOk(g, p) && id in Now(p).nodes && msgs <= Now(p).sent
    requires forall m :: m in msgs ==> m.from == id && MayLeave(Now(p).nodes[id], m)
    ensures PathOk(g, q) && Prolongs(p, q) && Now(q) == Now(p).(live := Now(p).live + msgs)
  {
    q := Go(g, p, Release(id, msgs), Now(p).(live := Now(p).live + msgs));
  }

  /** A message arrives, and its answers leave. */
  lemma Arrive(g: Group, p: Path, m: Msg, mci: nat, r: Outcome) returns (q: Path)
    requires PathOk(g, p) && m in Now(p).live && m.to in Now(p).nodes && WellFormed(m) && !m.ReadIndex?
    requires MciOk(g, Now(p).nodes[m.to], m, mci) && Step(g, Now(p).nodes[m.to], m, mci) == r && r.Ok?
    requires forall o :: o in r.out ==> o.from == m.to && !o.RequestVote?
    ensures PathOk(g, q) && Prolongs(p, q)
    ensures Now(q).nodes == Now(p).nodes[m.to := r.node]
    ensures Now(q).sent == Now(p).sent + r.out && Now(q).live == Now(p).live + r.out
  {
    hide Step, MciOk, WellFormed;
    var s := Now(p);
    var q1 := Go(g, p, Deliver(m, mci), Apply(s, m.to, r));
    q := Leave(g, q1, m.to, r.out);
    ProlongsTrans(p, q1, q);
  }

  /** What the invariant says about a node of a run. */
  lemma NodeNow(g: Group, p: Path, v: Id)
    requires PathOk(g, p)
    ensures Now(p).nodes.Keys == g.peers
    ensures v in Now(p).nodes ==>
              && Now(p).nodes[v].id == v && Now(p).nodes[v].matched.Keys == g.peers
              && Now(p).nodes[v].persisted <= |Now(p).nodes[v].log| && Now(p).nodes[v].committed <= |Now(p).nodes[v].log|
              && forall i :: 0 <= i < |Now(p).nodes[v].log| ==> Now(p).nodes[v].log[i].index == i + 1 && Now(p).nodes[v].log[i].term > 0
  {
    hide Next, Grows, Init;
    var hs := RunExplained(g, p.run, p.events);
    var k := |p.run| - 1;
    assert Inv(g, hs[k], p.run[k]);
    if v in Now(p).nodes {
      InvNode(g, hs[k], p.run[k], v);
    }
  }

  lemma InvNode(g: Group, h: Hist, s: State, v: Id)
    requires Inv(g, h, s) && v in s.nodes
    ensures var n := s.nodes[v];
            && n.id == v && n.matched.Keys == g.peers && n.persisted <= |n.log| && n.committed <= |n.log|
            && forall i :: 0 <= i < |n.log| ==> n.log[i].index == i + 1 && n.log[i].term > 0
  {
    hide *;
    NodeOf(g, h, s, v);
    NodeFacts(g, h, s.nodes[v]);
    LogEntries(g, h, s.nodes[v].log);
  }

  lemma LogEntries(g: Group, h: Hist, log: seq<Entry>)
    requires HistOk(g, h) && LogOk(h, log)
    ensures forall i :: 0 <= i < |log| ==> log[i].index == i + 1 && log[i].term > 0
  {
    forall i | 0 <= i < |log|
      ensures log[i].index == i + 1 && log[i].term > 0
    {
      assert EntryOk(h, log, i);
      TermsPositive(g, h, log, i + 1);
    }
  }

  // ----- campaigning

  /** The node keeps its log, its commit index and its priority. */
  predicate SameLog(n: Node, n': Node) {
    n'.id == n.id && n'.log == n.log && n'.committed == n.committed && n'.priority == n.priority
  }

  lemma GiveUp(g: Group, p: Path, c: Id) returns (q: Path)
    requires PathOk(g, p) && c in Now(p).nodes && !WinsAlone(g, c)
    ensures PathOk(g, q) && Prolongs(p, q) && c in Now(q).nodes
    ensures var n, n' := Now(p).nodes[c], Now(q).nodes[c];
            && Now(q).nodes == Now(p).nodes[c := n']
            && SameLog(n, n') && n'.term == n.term && n'.role != Leader && n'.persisted == n.persisted
  {
    hide WinsAlone;
    q := p;
    var n := Now(p).nodes[c];
    if n.role == Leader {
      q := Go(g, p, StepDown(c), Now(p).(nodes := Now(p).nodes[c := BecomeFollower(n, n.term, NONE)]));
    }
    assert Now(q).nodes == Now(p).nodes[c := Now(q).nodes[c]];
  }

  lemma PersistAll(g: Group, p: Path, c: Id) returns (q: Path)
    requires PathOk(g, p) && c in Now(p).nodes && Now(p).nodes[c].role != Leader && Now(p).nodes[c].persisted <= |Now(p).nodes[c].log|
    ensures PathOk(g, q) && Prolongs(p, q)
    ensures var n := Now(p).nodes[c]; Now(q).nodes == Now(p).nodes[c := n.(persisted := |n.log|)]
  {
    var n := Now(p).nodes[c];
    PersistCommits(n, |n.log|, 0);
    q := Go(g, p, Persist(c, |n.log|, 0), Now(p).(nodes := Now(p).nodes[c := PersistTo(n, |n.log|, 0)]));
  }

  /** A node gives up leading, and persists its log. */
  lemma Settle(g: Group, p: Path, c: Id) returns (q: Path)
    requires PathOk(g, p) && c in Now(p).nodes && !WinsAlone(g, c)
    ensures PathOk(g, q) && Prolongs(p, q) && c in Now(q).nodes
    ensures var n, n' := Now(p).nodes[c], Now(q).nodes[c];
            && Now(q).nodes == Now(p).nodes[c := n']
            && SameLog(n, n') && n'.term == n.term && n'.role != Leader && n'.persisted == |n'.log|
  {
    hide WinsAlone, IsRun, Prolongs;
    NodeNow(g, p, c);
    var q1 := GiveUp(g, p, c);
    q := PersistAll(g, q1, c);
    ProlongsTrans(p, q1, q);
    assert Now(q).nodes == Now(p).nodes[c := Now(q).nodes[c]];
  }

  /** A candidate that has persisted its log and knows of no refusal. */
  predicate Campaigning(n: Node, term: nat) {
    && n.role == Candidate && n.term == term && n.vote == n.id && n.persisted == |n.log|
    && forall v :: v in n.votes ==> n.votes[v]
  }

  /** Those who are known to have voted for it. */
  function YesSet(g: Group, n: Node): set<Id> {
    set v | v in Voters(g.cfg) && v in n.votes && n.votes[v]
  }

  lemma OwnVoteIsNoQuorum(g: Group, n: Node)
    requires !WinsAlone(g, n.id) && n.votes == map[n.id := true]
    ensures !IsQuorum(g.cfg, YesSet(g, n))
  {
    WonIsQuorum(g.cfg, n.votes);
    assert YesSet(g, n) == Yes(Voters(g.cfg), n.votes);
  }

  /** What the candidate asks the other voters for. */
  function Asks(g: Group, n: Node): set<Msg> {
    set v | v in Voters(g.cfg) && v != n.id :: AskFor(n, v, n.term, false)
  }

  lemma TimeOut(g: Group, p: Path, c: Id) returns (q: Path)
    requires PathOk(g, p) && c in Now(p).nodes && c in Voters(g.cfg) && !WinsAlone(g, c)
    requires var n := Now(p).nodes[c]; n.id == c && n.role != Leader && n.persisted == |n.log|
    ensures PathOk(g, q) && Prolongs(p, q) && c in Now(q).nodes
    ensures var n, n' := Now(p).nodes[c], Now(q).nodes[c];
            && Now(q).nodes == Now(p).nodes[c := n']
            && SameLog(n, n') && Campaigning(n', n.term + 1) && n'.votes == map[c := true] && Asks(g, n') <= Now(q).sent
  {
    var n := Now(p).nodes[c];
    TimeoutAsks(g, n, false);
    var r := Hup(g, n, false);
    AskedAs(g, n, r);
    hide Hup, Asking, AskFor, WinsAlone;
    q := Go(g, p, Timeout(c, false), Apply(Now(p), c, r));
  }

  lemma ReleaseAsks(g: Group, p: Path, c: Id, term: nat) returns (q: Path)
    requires PathOk(g, p) && c in Now(p).nodes && Now(p).nodes[c].id == c
    requires Campaigning(Now(p).nodes[c], term) && Asks(g, Now(p).nodes[c]) <= Now(p).sent
    ensures PathOk(g, q) && Prolongs(p, q) && Now(q).nodes == Now(p).nodes
    ensures Asks(g, Now(p).nodes[c]) <= Now(q).live
  {
    q := Leave(g, p, c, Asks(g, Now(p).nodes[c]));
  }

  /** Timing out again and again, a node reaches any later term as a candidate, and its requests leave it. */
  lemma {:induction false} CampaignAt(g: Group, p: Path, c: Id, term: nat) returns (q: Path)
    requires PathOk(g, p) && c in Now(p).nodes && c in Voters(g.cfg) && !WinsAlone(g, c)
    requires var n := Now(p).nodes[c]; n.id == c && n.role != Leader && n.term < term && n.persisted == |n.log|
    ensures PathOk(g, q) && Prolongs(p, q) && c in Now(q).nodes
    ensures var n, n' := Now(p).nodes[c], Now(q).nodes[c];
            && Now(q).nodes == Now(p).nodes[c := n']
            && SameLog(n, n') && Campaigning(n', term) && n'.votes == map[c := true] && Asks(g, n') <= Now(q).live
    decreases term - Now(p).nodes[c].term
  {
    hide IsRun, Prolongs, Asks, WinsAlone;
    var q1 := TimeOut(g, p, c);
    if Now(p).nodes[c].term + 1 == term {
      q := ReleaseAsks(g, q1, c, term);
    } else {
      q := CampaignAt(g, q1, c, term);
      assert Now(q).nodes == Now(p).nodes[c := Now(q).nodes[c]];
    }
    ProlongsTrans(p, q1, q);
  }

  lemma AskedAs(g: Group, n: Node, r: Outcome)
    requires r.Ok? && Asking(g, n, false, r)
    ensures SameLog(n, r.node) && r.node.role == Candidate && r.node.term == n.term + 1 && r.node.votes == map[n.id := true]
    ensures r.node.vote == n.id && r.node.persisted == n.persisted
    ensures forall m :: m in r.out ==> m.RequestVote? && m.from == n.id
    ensures Asks(g, r.node) <= r.out
  {
  }

  // ----- voting

  /** A voter that has not heard of the term, and may vote for the node. */
  predicate WillVote(n: Node, x: Node, v: Id) {
    x.id == v && x.term < n.term && NoOlder(|n.log|, EndTerm(n.log), x.log) && x.priority <= n.priority
  }

  /** The voter has followed into the term, or has not moved. */
  predicate Voted(x: Node, x': Node, term: nat) {
    x' == x || (SameLog(x, x') && x'.persisted == x.persisted && x'.term == term && x'.role == Follower)
  }

  lemma VoteStep(g: Group, p: Path, c: Id, v: Id) returns (q: Path)
    requires PathOk(g, p) && c in Now(p).nodes && v in Now(p).nodes && v != c && Now(p).nodes[c].id == c && Now(p).nodes[c].term > 0
    requires WillVote(Now(p).nodes[c], Now(p).nodes[v], v)
    requires AskFor(Now(p).nodes[c], v, Now(p).nodes[c].term, false) in Now(p).live
    ensures PathOk(g, q) && Prolongs(p, q) && v in Now(q).nodes
    ensures Now(q).nodes == Now(p).nodes[v := Now(q).nodes[v]] && Now(p).live <= Now(q).live
    ensures Voted(Now(p).nodes[v], Now(q).nodes[v], Now(p).nodes[c].term)
    ensures VoteResp(v, c, Now(p).nodes[c].term, false, false, 0, 0) in Now(q).live
  {
    hide IsRun, Prolongs, Step;
    var n, x := Now(p).nodes[c], Now(p).nodes[v];
    var m := AskFor(n, v, n.term, false);
    VoteAnswered(g, x, m, 0);
    q := Arrive(g, p, m, 0, Step(g, x, m, 0));
  }

  lemma AllAreQuorum(cfg: JointConfig)
    ensures IsQuorum(cfg, Voters(cfg))
  {
    assert cfg.incoming * Voters(cfg) == cfg.incoming && cfg.outgoing * Voters(cfg) == cfg.outgoing;
  }

  /** The vote arrives: the candidate leads, or it still campaigns, with one vote more. */
  lemma CountStep(g: Group, p: Path, c: Id, v: Id) returns (q: Path)
    requires PathOk(g, p) && c in Now(p).nodes && v in Voters(g.cfg) && Now(p).nodes[c].id == c
    requires Campaigning(Now(p).nodes[c], Now(p).nodes[c].term) && Now(p).nodes[c].term > 0
    requires VoteResp(v, c, Now(p).nodes[c].term, false, false, 0, 0) in Now(p).live
    ensures PathOk(g, q) && Prolongs(p, q) && c in Now(q).nodes
    ensures var n, n' := Now(p).nodes[c], Now(q).nodes[c];
            && Now(q).nodes == Now(p).nodes[c := n'] && Now(p).live <= Now(q).live
            && (LeadsNext(n, n.term, n')
                || (n' == n.(votes := n'.votes) && Campaigning(n', n.term) && n'.votes.Keys == n.votes.Keys + {v} && !IsQuorum(g.cfg, YesSet(g, n'))))
  {
    hide IsRun, Prolongs, Step, IsQuorum;
    var n := Now(p).nodes[c];
    var m := VoteResp(v, c, n.term, false, false, 0, 0);
    AnswerDecides(g, n, m, 0);
    AllAreQuorum(g.cfg);
    assert YesVoters(g, n, v, true) + Silent(g, n, v) == Voters(g.cfg);
    q := Arrive(g, p, m, 0, Step(g, n, m, 0));
    var n' := Now(q).nodes[c];
    if !IsQuorum(g.cfg, YesVoters(g, n, v, true)) {
      assert StillAsks(n, m, n');
      assert YesSet(g, n') == YesVoters(g, n, v, true);
    }
  }

  /** Everyone but the candidate has followed into the term or has not moved. */
  ghost predicate OthersVoted(s: State, s': State, c: Id, term: nat) {
    && s'.nodes.Keys == s.nodes.Keys
    && forall v :: v in s.nodes && v != c ==> Voted(s.nodes[v], s'.nodes[v], term)
  }

  /** The candidate has the votes of the quorum but for those still to come, whose requests are under way. */
  ghost predicate Gathering(g: Group, s: State, c: Id, quorum: set<Id>, todo: set<Id>) {
    && c in s.nodes && s.nodes[c].id == c && Campaigning(s.nodes[c], s.nodes[c].term) && s.nodes[c].term > 0
    && !IsQuorum(g.cfg, YesSet(g, s.nodes[c])) && IsQuorum(g.cfg, quorum) && quorum <= Voters(g.cfg)
    && quorum <= s.nodes[c].votes.Keys + todo && c !in todo && todo <= quorum && Asks(g, s.nodes[c]) <= s.live
    && forall v :: v in todo ==> v in s.nodes && WillVote(s.nodes[c], s.nodes[v], v)
  }

  lemma OneVote(g: Group, p: Path, c: Id, quorum: set<Id>, todo: set<Id>, v: Id) returns (q: Path)
    requires PathOk(g, p) && Gathering(g, Now(p), c, quorum, todo) && v in todo
    ensures PathOk(g, q) && Prolongs(p, q) && c in Now(q).nodes
    ensures OthersVoted(Now(p), Now(q), c, Now(p).nodes[c].term)
    ensures var n, n' := Now(p).nodes[c], Now(q).nodes[c];
            || LeadsNext(n, n.term, n')
            || (n' == n.(votes := n'.votes) && Gathering(g, Now(q), c, quorum, todo - {v}))
  {
    hide IsRun, Prolongs, IsQuorum, LeadsNext, SameLog, NoOlder, EndTerm, YesSet, Asks;
    var n := Now(p).nodes[c];
    AsksEach(g, n, v);
    var q1 := VoteStep(g, p, c, v);
    q := CountStep(g, q1, c, v);
    ProlongsTrans(p, q1, q);
    var n' := Now(q).nodes[c];
    if n' == n.(votes := n'.votes) {
      SameAsks(g, n, n');
    }
  }

  lemma AsksEach(g: Group, n: Node, v: Id)
    requires v in Voters(g.cfg) && v != n.id
    ensures AskFor(n, v, n.term, false) in Asks(g, n)
  {
  }

  /** A candidate that the voters of a quorum are willing to vote for gets their votes one after the other, and
      leads. */
  lemma {:induction false} GatherVotes(g: Group, p: Path, c: Id, quorum: set<Id>, todo: set<Id>) returns (q: Path)
    requires PathOk(g, p) && Gathering(g, Now(p), c, quorum, todo)
    ensures PathOk(g, q) && Prolongs(p, q) && c in Now(q).nodes
    ensures LeadsNext(Now(p).nodes[c], Now(p).nodes[c].term, Now(q).nodes[c])
    ensures OthersVoted(Now(p), Now(q), c, Now(p).nodes[c].term)
    decreases |todo|
  {
    hide IsRun, Prolongs, LeadsNext, Gathering, OthersVoted, Campaigning;
    StillToCome(g, Now(p), c, quorum, todo);
    var n := Now(p).nodes[c];
    var v :| v in todo;
    var q1 := OneVote(g, p, c, quorum, todo, v);
    q := q1;
    var n' := Now(q1).nodes[c];
    if !LeadsNext(n, n.term, n') {
      q := GatherVotes(g, q1, c, quorum, todo - {v});
      ProlongsTrans(p, q1, q);
      SameLeads(n, n', Now(q).nodes[c]);
      OthersTrans(Now(p), Now(q1), Now(q), c, n.term);
    }
  }

  lemma StillToCome(g: Group, s: State, c: Id, quorum: set<Id>, todo: set<Id>)
    requires Gathering(g, s, c, quorum, todo)
    ensures c in s.nodes && todo != {}
  {
    if todo == {} {
      YesEnough(g, s.nodes[c], quorum);
      assert false;
    }
  }

  lemma OthersTrans(s: State, s1: State, s2: State, c: Id, term: nat)
    requires OthersVoted(s, s1, c, term) && OthersVoted(s1, s2, c, term)
    ensures OthersVoted(s, s2, c, term)
  {
  }

  lemma YesEnough(g: Group, n: Node, quorum: set<Id>)
    requires IsQuorum(g.cfg, quorum) && quorum <= Voters(g.cfg) && quorum <= n.votes.Keys && forall v :: v in n.votes ==> n.votes[v]
    ensures IsQuorum(g.cfg, YesSet(g, n))
  {
    QuorumWithin(g.cfg, quorum, YesSet(g, n));
  }

  lemma QuorumStays(cfg: JointConfig, a: set<Id>, b: set<Id>)
    requires IsQuorum(cfg, a)
    ensures IsQuorum(cfg, a + b)
  {
    SubsetSize(cfg.incoming * a, cfg.incoming * (a + b));
    SubsetSize(cfg.outgoing * a, cfg.outgoing * (a + b));
  }

  lemma QuorumWithin(cfg: JointConfig, a: set<Id>, b: set<Id>)
    requires IsQuorum(cfg, a) && a <= b
    ensures IsQuorum(cfg, b)
  {
    QuorumStays(cfg, a, b);
    assert a + b == b;
  }

  lemma SameAsks(g: Group, n: Node, n': Node)
    requires n' == n.(votes := n'.votes)
    ensures Asks(g, n') == Asks(g, n)
    ensures forall v, x :: WillVote(n, x, v) ==> WillVote(n', x, v)
  {
  }

  lemma SameLeads(n: Node, n': Node, x: Node)
    requires n' == n.(votes := n'.votes) && LeadsNext(n', n'.term, x)
    ensures LeadsNext(n, n.term, x)
  {
  }

  // ----- replicating

  /** A node that has not followed the leader beyond its term, and agrees with it as far as it has committed. */
  predicate WillFollow(n: Node, x: Node, v: Id) {
    && x.id == v && (x.term < n.term || (x.term == n.term && x.role != Leader))
    && x.committed <= |x.log| && x.committed <= |n.log| && x.log[..x.committed] == n.log[..x.committed]
  }

  /** A follower of the leader that has as many entries. */
  predicate CaughtUp(n: Node, x: Node, v: Id) {
    x.id == v && x.role == Follower && x.term == n.term && |x.log| >= |n.log|
  }

  /** The message with everything behind what the node has committed. */
  function Rest(n: Node, x: Node, v: Id): Msg
    requires x.committed <= |n.log|
  {
    Append(n.id, v, n.term, x.committed, TermAt(n.log, x.committed), n.log[x.committed..], n.committed)
  }

  lemma RestAllowed(g: Group, n: Node, x: Node, v: Id)
    requires n.role == Leader && v in n.matched && v != n.id && WillFollow(n, x, v)
    requires forall i :: 0 <= i < |n.log| ==> n.log[i].index == i + 1 && n.log[i].term > 0
    ensures LeaderMay(g, n, Rest(n, x, v)) && WellFormed(Rest(n, x, v))
  {
    assert n.log[x.committed..] <= n.log[x.committed..];
  }

  lemma RestHeld(n: Node, x: Node, v: Id)
    requires n.term > 0 && WillFollow(n, x, v)
    ensures var m := Rest(n, x, v);
            FromLeader(x, m) && Holds(x.log, m.index, m.logTerm) && m.index == x.committed && m.index + |m.entries| == |n.log|
  {
    if x.committed > 0 {
      assert x.log[x.committed - 1] == x.log[..x.committed][x.committed - 1] == n.log[..x.committed][x.committed - 1];
    }
  }

  lemma RestTaken(g: Group, n: Node, x: Node, v: Id) returns (commit: nat)
    requires n.term > 0 && WillFollow(n, x, v) && WellFormed(Rest(n, x, v))
    ensures var r := Step(g, x, Rest(n, x, v), 0);
            r.Ok? && CaughtUp(n, r.node, v) && r.out == {AppendResp(v, n.id, n.term, |n.log|, false, 0, 0, commit)}
  {
    hide Step, WellFormed, Holds, FromLeader, TakenOver;
    var m := Rest(n, x, v);
    RestHeld(n, x, v);
    var k := AppendTaken(g, x, m, 0);
    var x' := Step(g, x, m, 0).node;
    TakenOverLength(x.log, m.index, m.entries, k, x'.log);
    commit := x'.committed;
  }

  /** The leader sends the rest of its log to a node, which takes it over and acknowledges it. */
  lemma SendRest(g: Group, p: Path, c: Id, v: Id) returns (q: Path, commit: nat)
    requires PathOk(g, p) && c in Now(p).nodes && v in Now(p).nodes && v != c
    requires Now(p).nodes[c].role == Leader && Now(p).nodes[c].term > 0 && WillFollow(Now(p).nodes[c], Now(p).nodes[v], v)
    ensures PathOk(g, q) && Prolongs(p, q) && v in Now(q).nodes
    ensures Now(q).nodes == Now(p).nodes[v := Now(q).nodes[v]]
    ensures CaughtUp(Now(p).nodes[c], Now(q).nodes[v], v)
    ensures AppendResp(v, c, Now(p).nodes[c].term, |Now(p).nodes[c].log|, false, 0, 0, commit) in Now(q).live
  {
    var n, x := Now(p).nodes[c], Now(p).nodes[v];
    NodeNow(g, p, c);
    NodeNow(g, p, v);
    RestAllowed(g, n, x, v);
    commit := RestTaken(g, n, x, v);
    hide IsRun, Prolongs, Step, WillFollow, CaughtUp, LeaderMay, WellFormed;
    var m := Rest(n, x, v);
    var q1 := Go(g, p, LeaderSends(c, m), Now(p).(sent := Now(p).sent + {m}));
    var q2 := Leave(g, q1, c, {m});
    var r := Step(g, x, m, 0);
    q := Arrive(g, q2, m, 0, r);
    ProlongsTrans(p, q1, q2);
    ProlongsTrans(p, q2, q);
  }

  /** The acknowledgement arrives, and the leader commits if a quorum has acknowledged its log. */
  lemma TakeAck(g: Group, p: Path, c: Id, v: Id, commit: nat) returns (q: Path)
    requires PathOk(g, p) && c in Now(p).nodes && Now(p).nodes[c].id == c
    requires var n := Now(p).nodes[c];
             && n.role == Leader && n.term > 0 && n.log != [] && n.log[|n.log| - 1].term == n.term
             && v in n.matched && n.matched[v] < |n.log|
             && AppendResp(v, c, n.term, |n.log|, false, 0, 0, commit) in Now(p).live
    ensures PathOk(g, q) && Prolongs(p, q) && c in Now(q).nodes
    ensures var n, n' := Now(p).nodes[c], Now(q).nodes[c];
            && Now(q).nodes == Now(p).nodes[c := n']
            && n' == n.(matched := n.matched[v := |n.log|], committed := n'.committed)
            && n'.committed >= n.committed
            && (IsQuorum(g.cfg, Acked(n'.matched, |n.log|)) ==> n'.committed >= |n.log|)
  {
    var n := Now(p).nodes[c];
    var m := AppendResp(v, c, n.term, |n.log|, false, 0, 0, commit);
    var mci := if IsQuorum(g.cfg, Acked(n.matched[v := |n.log|], |n.log|)) then |n.log| else 0;
    AckCommits(g, n, m, mci);
    assert MciOk(g, n, m, mci);
    hide IsRun, Prolongs, Step, IsQuorum, MciOk;
    q := Arrive(g, p, m, mci, Step(g, n, m, mci));
  }

  /** A leader whose last entry is of its own term. */
  predicate Leading(n: Node, c: Id) {
    n.id == c && n.role == Leader && n.term > 0 && n.log != [] && n.log[|n.log| - 1].term == n.term
  }

  /** All of the quorum but `todo` hold the leader's log and have told it so. */
  ghost predicate Replicating(g: Group, s: State, c: Id, quorum: set<Id>, todo: set<Id>) {
    && c in s.nodes && Leading(s.nodes[c], c) && c in quorum && c !in todo && todo <= quorum
    && var n := s.nodes[c];
       && quorum <= n.matched.Keys && quorum <= s.nodes.Keys
       && (IsQuorum(g.cfg, Acked(n.matched, |n.log|)) ==> n.committed >= |n.log|)
       && (forall v :: v in quorum && v !in todo ==> n.matched[v] >= |n.log| && (v == c || CaughtUp(n, s.nodes[v], v)))
       && (forall v :: v in todo ==> n.matched[v] < |n.log| && WillFollow(n, s.nodes[v], v))
  }

  lemma ReplicateOne(g: Group, p: Path, c: Id, quorum: set<Id>, todo: set<Id>, v: Id) returns (q: Path)
    requires PathOk(g, p) && Replicating(g, Now(p), c, quorum, todo) && v in todo
    ensures PathOk(g, q) && Prolongs(p, q) && Replicating(g, Now(q), c, quorum, todo - {v})
    ensures SameLead(Now(p).nodes[c], Now(q).nodes[c])
  {
    hide IsRun, Prolongs, IsQuorum, Acked, WillFollow, CaughtUp;
    var q1, commit := SendRest(g, p, c, v);
    q := TakeAck(g, q1, c, v, commit);
    ProlongsTrans(p, q1, q);
    Unmoved(Now(p).nodes[c], Now(q).nodes[c]);
  }

  /** The node leads the same term with the same log. */
  predicate SameLead(n: Node, n': Node) {
    n'.id == n.id && n'.term == n.term && n'.log == n.log && n'.role == n.role
  }

  lemma Unmoved(n: Node, n': Node)
    requires SameLead(n, n')
    ensures forall x, v :: WillFollow(n, x, v) ==> WillFollow(n', x, v)
    ensures forall x, v :: CaughtUp(n, x, v) ==> CaughtUp(n', x, v)
  {
  }

  lemma {:induction false} ReplicateAll(g: Group, p: Path, c: Id, quorum: set<Id>, todo: set<Id>) returns (q: Path)
    requires PathOk(g, p) && Replicating(g, Now(p), c, quorum, todo)
    ensures PathOk(g, q) && Prolongs(p, q) && Replicating(g, Now(q), c, quorum, {})
    ensures SameLead(Now(p).nodes[c], Now(q).nodes[c])
    decreases |todo|
  {
    hide IsRun, Prolongs, IsQuorum, Acked, CaughtUp, WillFollow;
    q := p;
    ProlongsRefl(p);
    if todo != {} {
      var v :| v in todo;
      var q1 := ReplicateOne(g, p, c, quorum, todo, v);
      q := ReplicateAll(g, q1, c, quorum, todo - {v});
      ProlongsTrans(p, q1, q);
    }
  }

  /** Once a quorum holds the leader's log, the leader has committed it. */
  lemma QuorumCommits(g: Group, s: State, c: Id, quorum: set<Id>)
    requires Replicating(g, s, c, quorum, {}) && IsQuorum(g.cfg, quorum)
    ensures s.nodes[c].committed >= |s.nodes[c].log|
  {
    var n := s.nodes[c];
    var acked := Acked(n.matched, |n.log|);
    QuorumWithin(g.cfg, quorum, acked);
  }

  // ----- telling the others

  /** All of the quorum but `todo` have committed the leader's log. */
  ghost predicate Telling(s: State, c: Id, quorum: set<Id>, todo: set<Id>) {
    && c in s.nodes && Leading(s.nodes[c], c) && c in quorum && c !in todo && todo <= quorum
    && var n := s.nodes[c];
       && quorum <= n.matched.Keys && quorum <= s.nodes.Keys && n.committed >= |n.log|
       && (forall v :: v in quorum && v !in todo ==> s.nodes[v].committed >= |n.log|)
       && (forall v :: v in todo ==> n.matched[v] >= |n.log| && CaughtUp(n, s.nodes[v], v))
  }

  lemma BeatAllowed(g: Group, n: Node, v: Id)
    requires n.role == Leader && v in n.matched && v != n.id
    ensures LeaderMay(g, n, Heartbeat(n.id, v, n.term, Min(n.matched[v], n.committed), []))
  {
  }

  lemma TellOne(g: Group, p: Path, c: Id, quorum: set<Id>, todo: set<Id>, v: Id) returns (q: Path)
    requires PathOk(g, p) && Telling(Now(p), c, quorum, todo) && v in todo
    ensures PathOk(g, q) && Prolongs(p, q) && Telling(Now(q), c, quorum, todo - {v})
    ensures Now(q).nodes[c] == Now(p).nodes[c]
  {
    hide IsRun, Prolongs, Step, LeaderMay;
    NodeNow(g, p, c);
    var n, x := Now(p).nodes[c], Now(p).nodes[v];
    var m := Heartbeat(c, v, n.term, Min(n.matched[v], n.committed), []);
    BeatAllowed(g, n, v);
    HeartbeatTaken(g, x, m, 0);
    var q1 := Go(g, p, LeaderSends(c, m), Now(p).(sent := Now(p).sent + {m}));
    var q2 := Leave(g, q1, c, {m});
    q := Arrive(g, q2, m, 0, Step(g, x, m, 0));
    ProlongsTrans(p, q1, q2);
    ProlongsTrans(p, q2, q);
  }

  lemma {:induction false} TellAll(g: Group, p: Path, c: Id, quorum: set<Id>, todo: set<Id>) returns (q: Path)
    requires PathOk(g, p) && Telling(Now(p), c, quorum, todo)
    ensures PathOk(g, q) && Prolongs(p, q) && Telling(Now(q), c, quorum, {})
    ensures Now(q).nodes[c] == Now(p).nodes[c]
    decreases |todo|
  {
    hide IsRun, Prolongs, CaughtUp;
    q := p;
    ProlongsRefl(p);
    if todo != {} {
      var v :| v in todo;
      var q1 := TellOne(g, p, c, quorum, todo, v);
      q := TellAll(g, q1, c, quorum, todo - {v});
      ProlongsTrans(p, q1, q);
    }
  }

  // ----- putting it together

  lemma NoOlderTrans(a: seq<Entry>, b: seq<Entry>, c: seq<Entry>)
    requires NoOlder(|a|, EndTerm(a), b) && NoOlder(|b|, EndTerm(b), c)
    ensures NoOlder(|a|, EndTerm(a), c)
  {
  }

  /** Some node of a set has a log that is no older than any other's. */
  lemma {:induction false} Newest(s: State, vs: set<Id>) returns (c: Id)
    requires vs != {} && vs <= s.nodes.Keys
    ensures c in vs && forall v :: v in vs ==> NoOlder(|s.nodes[c].log|, EndTerm(s.nodes[c].log), s.nodes[v].log)
    decreases |vs|
  {
    var v :| v in vs;
    var rest := vs - {v};
    c := v;
    if rest != {} {
      var d := Newest(s, rest);
      OneIsNoOlder(s.nodes[v].log, s.nodes[d].log);
      if NoOlder(|s.nodes[d].log|, EndTerm(s.nodes[d].log), s.nodes[v].log) {
        c := d;
      } else {
        forall w | w in rest
          ensures NoOlder(|s.nodes[v].log|, EndTerm(s.nodes[v].log), s.nodes[w].log)
        {
          NoOlderTrans(s.nodes[v].log, s.nodes[d].log, s.nodes[w].log);
        }
      }
    }
    hide NoOlder;
    assert forall w :: w in vs ==> w == v || w in rest;
  }

  /** A term later than all the terms of some nodes. */
  lemma {:induction false} LaterTerm(s: State, vs: set<Id>) returns (t: nat)
    requires vs <= s.nodes.Keys
    ensures t > 0 && forall v :: v in vs ==> s.nodes[v].term < t
    decreases |vs|
  {
    t := 1;
    if vs != {} {
      var v :| v in vs;
      t := LaterTerm(s, vs - {v});
      t := Max(t, s.nodes[v].term + 1);
      assert forall w :: w in vs ==> w == v || w in vs - {v};
    }
  }

  /** Every voter of the quorum has the same priority, and none decides alone. */
  predicate Peers(g: Group, s: State, quorum: set<Id>) {
    && IsQuorum(g.cfg, quorum) && quorum <= Voters(g.cfg) && quorum <= s.nodes.Keys
    && (forall v, w :: v in quorum && w in quorum ==> s.nodes[v].priority == s.nodes[w].priority)
    && forall v :: v in quorum ==> !WinsAlone(g, v)
  }

  /** The node's log is no older and its priority no lower than that of any voter of the quorum. */
  ghost predicate Backed(g: Group, s: State, c: Id, quorum: set<Id>) {
    && IsQuorum(g.cfg, quorum) && quorum <= Voters(g.cfg) && quorum <= s.nodes.Keys && c in quorum && !WinsAlone(g, c)
    && forall v :: v in quorum ==>
         NoOlder(|s.nodes[c].log|, EndTerm(s.nodes[c].log), s.nodes[v].log) && s.nodes[v].priority <= s.nodes[c].priority
  }

  lemma NewestIsBacked(g: Group, s: State, quorum: set<Id>) returns (c: Id)
    requires GroupOk(g) && Peers(g, s, quorum)
    ensures Backed(g, s, c, quorum)
  {
    hide WinsAlone, NoOlder, EndTerm, IsQuorum;
    QuorumHasMember(g, quorum);
    c := Newest(s, quorum);
  }

  /** It campaigns in a term later than all. */
  lemma BackedCampaigns(g: Group, p: Path, c: Id, quorum: set<Id>) returns (q: Path, t: nat)
    requires PathOk(g, p) && Backed(g, Now(p), c, quorum)
    ensures PathOk(g, q) && Prolongs(p, q) && c in Now(p).nodes && c in Now(q).nodes && Now(p).nodes[c].id == c
    ensures Now(q).nodes == Now(p).nodes[c := Now(q).nodes[c]]
    ensures forall v :: v in Now(p).nodes ==> Now(p).nodes[v].term < t
    ensures SameLog(Now(p).nodes[c], Now(q).nodes[c]) && Campaigning(Now(q).nodes[c], t) && Gathering(g, Now(q), c, quorum, quorum - {c})
  {
    hide IsRun, Prolongs, WinsAlone, NoOlder, EndTerm, IsQuorum, Asks, Gathering;
    t := LaterTerm(Now(p), Now(p).nodes.Keys);
    NodeNow(g, p, c);
    var q1 := Settle(g, p, c);
    q := CampaignAt(g, q1, c, t);
    ProlongsTrans(p, q1, q);
    assert Now(q).nodes == Now(p).nodes[c := Now(q).nodes[c]];
    StartGathering(g, p, q, c, quorum, t);
  }

  /** It is elected. */
  lemma Elect(g: Group, p: Path, c: Id, quorum: set<Id>) returns (q: Path, x: Node)
    requires PathOk(g, p) && Backed(g, Now(p), c, quorum)
    ensures PathOk(g, q) && Prolongs(p, q) && c in quorum && c in Now(q).nodes
    ensures forall v :: v in Now(p).nodes ==> Now(p).nodes[v].term < Now(q).nodes[c].term
    ensures c in Now(p).nodes && Now(p).nodes[c].id == c && SameLog(Now(p).nodes[c], x) && x.persisted == |x.log|
    ensures LeadsNext(x, Now(q).nodes[c].term, Now(q).nodes[c])
    ensures OthersVoted(Now(p), Now(q), c, Now(q).nodes[c].term)
  {
    hide IsRun, Prolongs, Gathering, LeadsNext, SameLog, IsQuorum, WinsAlone, NoOlder;
    var q1, t;
    q1, t := BackedCampaigns(g, p, c, quorum);
    q := GatherVotes(g, q1, c, quorum, quorum - {c});
    ProlongsTrans(p, q1, q);
    x := Now(q1).nodes[c];
    LeadsTerm(x, x.term, Now(q).nodes[c]);
  }

  lemma LeadsTerm(x: Node, term: nat, n: Node)
    requires LeadsNext(x, term, n)
    ensures n.term == term
  {
  }

  lemma QuorumHasMember(g: Group, quorum: set<Id>)
    requires GroupOk(g) && IsQuorum(g.cfg, quorum)
    ensures quorum != {}
  {
    NoneIsNoQuorum(g);
  }

  lemma StartGathering(g: Group, p: Path, q: Path, c: Id, quorum: set<Id>, t: nat)
    requires PathOk(g, p) && PathOk(g, q) && Backed(g, Now(p), c, quorum) && t > 0
    requires c in Now(q).nodes && Now(q).nodes == Now(p).nodes[c := Now(q).nodes[c]] && Now(p).nodes[c].id == c
    requires SameLog(Now(p).nodes[c], Now(q).nodes[c]) && Campaigning(Now(q).nodes[c], t) && Now(q).nodes[c].votes == map[c := true]
    requires Asks(g, Now(q).nodes[c]) <= Now(q).live
    requires forall v :: v in Now(p).nodes ==> Now(p).nodes[v].term < t
    ensures Gathering(g, Now(q), c, quorum, quorum - {c})
  {
    hide IsRun, WinsAlone, NoOlder, EndTerm, IsQuorum, YesSet, Asks;
    var n := Now(q).nodes[c];
    OwnVoteIsNoQuorum(g, n);
    forall v | v in quorum - {c}
      ensures v in Now(q).nodes && WillVote(n, Now(q).nodes[v], v)
    {
      NodeNow(g, p, v);
    }
    hide WillVote, Campaigning;
    assert Campaigning(n, n.term);
  }

  /** The new leader takes proposals, and persists its log. */
  lemma TakeProposals(g: Group, p: Path, c: Id, bodies: seq<Entry>, x: Node) returns (q: Path)
    requires PathOk(g, p) && c in Now(p).nodes && Now(p).nodes[c].id == c
    requires LeadsNext(x, Now(p).nodes[c].term, Now(p).nodes[c]) && x.persisted == |x.log| && c in Now(p).nodes[c].matched
    ensures PathOk(g, q) && Prolongs(p, q)
    ensures var n := Now(p).nodes[c];
            var log := n.log + Stamp(bodies, n.term, |n.log|);
            Now(q).nodes == Now(p).nodes[c := n.(log := log, persisted := |log|, matched := n.matched[c := |log|])]
  {
    hide IsRun, Prolongs;
    var n := Now(p).nodes[c];
    var y := n.(log := n.log + Stamp(bodies, n.term, |n.log|));
    var q1 := Go(g, p, Propose(c, bodies), Now(p).(nodes := Now(p).nodes[c := y]));
    PersistCommits(y, |y.log|, 0);
    assert CommitsTo(y, 0) == y.committed;
    q := Go(g, q1, Persist(c, |y.log|, 0), Now(q1).(nodes := Now(q1).nodes[c := PersistTo(y, |y.log|, 0)]));
    ProlongsTrans(p, q1, q);
    assert Now(q).nodes == Now(p).nodes[c := PersistTo(y, |y.log|, 0)];
  }

  /** What a node had committed is in the log of the leader that was elected since. */
  lemma LeaderHasCommitted(g: Group, p: Path, q: Path, v: Id, c: Id)
    requires PathOk(g, p) && PathOk(g, q) && Prolongs(p, q) && v in Now(p).nodes && c in Now(q).nodes
    requires Now(q).nodes[c].role == Leader && forall u :: u in Now(p).nodes ==> Now(p).nodes[u].term < Now(q).nodes[c].term
    ensures Now(p).nodes[v].committed <= |Now(p).nodes[v].log|
    ensures Now(p).nodes[v].log[..Now(p).nodes[v].committed] <= Now(q).nodes[c].log
  {
    hide IsRun;
    assert q.run[|p.run| - 1] == Now(p);
    CommittedReachesLaterLeaders(g, q.run, q.events, |p.run| - 1, |q.run| - 1, v, c);
  }

  lemma VotedWillFollow(x: Node, x': Node, n: Node, v: Id)
    requires Voted(x, x', n.term) && x'.id == v && x.term < n.term
    requires x.committed <= |x.log| && x.log[..x.committed] <= n.log
    ensures WillFollow(n, x', v)
  {
    assert n.log[..x.committed] == x.log[..x.committed];
  }

  lemma StampEnds(log: seq<Entry>, bodies: seq<Entry>, term: nat)
    requires log != [] && log[|log| - 1].term == term
    ensures var l := log + Stamp(bodies, term, |log|); l != [] && l[|l| - 1].term == term && |l| == |log| + |bodies|
  {
  }

  lemma StartReplicating(g: Group, p: Path, q: Path, c: Id, quorum: set<Id>, x: Node, bodies: seq<Entry>, r: Path)
    requires PathOk(g, p) && PathOk(g, q) && PathOk(g, r) && Prolongs(p, q) && Backed(g, Now(p), c, quorum) && c in Now(q).nodes
    requires forall v :: v in Now(p).nodes ==> Now(p).nodes[v].term < Now(q).nodes[c].term
    requires LeadsNext(x, Now(q).nodes[c].term, Now(q).nodes[c]) && x.id == c && x.persisted == |x.log|
    requires OthersVoted(Now(p), Now(q), c, Now(q).nodes[c].term)
    requires var n := Now(q).nodes[c];
             var log := n.log + Stamp(bodies, n.term, |n.log|);
             Now(r).nodes == Now(q).nodes[c := n.(log := log, persisted := |log|, matched := n.matched[c := |log|])]
    ensures Replicating(g, Now(r), c, quorum, quorum - {c})
  {
    hide IsRun, IsQuorum, WinsAlone, Stamp;
    var n, n' := Now(q).nodes[c], Now(r).nodes[c];
    NodeNow(g, q, c);
    StampEnds(n.log, bodies, n.term);
    AloneAcked(g, n', c);
    forall v | v in quorum - {c}
      ensures n'.matched[v] < |n'.log| && WillFollow(n', Now(r).nodes[v], v)
    {
      NodeNow(g, q, v);
      LeaderHasCommitted(g, p, q, v, c);
      VotedWillFollow(Now(p).nodes[v], Now(q).nodes[v], n', v);
    }
  }

  lemma AloneAcked(g: Group, n: Node, c: Id)
    requires c in n.matched && n.log != [] && !WinsAlone(g, c) && forall v :: v in n.matched && v != c ==> n.matched[v] == 0
    ensures !IsQuorum(g.cfg, Acked(n.matched, |n.log|))
  {
    AloneIsNoQuorum(g, c);
    var acked := Acked(n.matched, |n.log|);
    assert acked <= {c};
    hide WinsAlone, IsQuorum, Acked;
    if IsQuorum(g.cfg, acked) {
      QuorumWithin(g.cfg, acked, {c});
    }
  }

  lemma AloneIsNoQuorum(g: Group, c: Id)
    requires !WinsAlone(g, c)
    ensures !IsQuorum(g.cfg, {c})
  {
    WonIsQuorum(g.cfg, map[c := true]);
    hide JointVote;
    var yes := Yes(Voters(g.cfg), map[c := true]);
    assert g.cfg.incoming * yes == g.cfg.incoming * {c} && g.cfg.outgoing * yes == g.cfg.outgoing * {c};
  }

  /** Elects a leader, has it take the proposals, and brings its log to the quorum. */
  lemma ElectAndReplicate(g: Group, p: Path, quorum: set<Id>, bodies: seq<Entry>) returns (q: Path, c: Id)
    requires PathOk(g, p) && Peers(g, Now(p), quorum)
    ensures PathOk(g, q) && Prolongs(p, q) && Replicating(g, Now(q), c, quorum, {})
    ensures forall v :: v in Now(p).nodes ==> Now(p).nodes[v].term < Now(q).nodes[c].term
    ensures c in Now(p).nodes
    ensures var n := Now(q).nodes[c];
            n.log == Now(p).nodes[c].log + [EmptyEntry(n.term, |Now(p).nodes[c].log| + 1)]
                     + Stamp(bodies, n.term, |Now(p).nodes[c].log| + 1)
  {
    hide IsRun, Prolongs, Peers, Backed, OthersVoted, Replicating, Stamp;
    c := NewestIsBacked(g, Now(p), quorum);
    var q1, x;
    q1, x := Elect(g, p, c, quorum);
    NodeNow(g, q1, c);
    var q2 := TakeProposals(g, q1, c, bodies, x);
    StartReplicating(g, p, q1, c, quorum, x, bodies, q2);
    q := ReplicateAll(g, q2, c, quorum, quorum - {c});
    ProlongsTrans(p, q1, q2);
    ProlongsTrans(p, q2, q);
    ReplicatingNode(g, Now(q2), c, quorum, quorum - {c});
    ReplicatingNode(g, Now(q), c, quorum, {});
  }

  lemma ReplicatingNode(g: Group, s: State, c: Id, quorum: set<Id>, todo: set<Id>)
    requires Replicating(g, s, c, quorum, todo)
    ensures c in quorum && c in s.nodes && s.nodes[c].role == Leader
  {
  }

  lemma TellingNode(s: State, c: Id, quorum: set<Id>)
    requires Telling(s, c, quorum, {})
    ensures c in s.nodes
  {
  }

  lemma StartTelling(g: Group, s: State, c: Id, quorum: set<Id>)
    requires Replicating(g, s, c, quorum, {}) && IsQuorum(g.cfg, quorum)
    ensures Telling(s, c, quorum, quorum - {c})
  {
    QuorumCommits(g, s, c, quorum);
    hide IsQuorum, Acked, CaughtUp;
  }

  /** From every state of every run, any quorum of voters with equal priorities, of which none decides alone,
      can elect one of them in a term later than all, and whatever is then proposed is committed by all of
      them: they hold the leader's log as far as it goes, with what anyone had committed before in it. */
  lemma CanCommit(g: Group, run: seq<State>, events: seq<Event>, quorum: set<Id>, bodies: seq<Entry>)
      returns (run': seq<State>, events': seq<Event>, c: Id)
    requires GroupOk(g) && IsRun(g, run, events) && run != [] && Peers(g, run[|run| - 1], quorum)
    ensures IsRun(g, run', events') && run' != [] && run <= run' && events <= events'
    ensures c in quorum && c in run[|run| - 1].nodes && c in run'[|run'| - 1].nodes
    ensures var (s, s') := (run[|run| - 1], run'[|run'| - 1]);
            var (before, n) := (s.nodes[c].log, s'.nodes[c]);
            && n.role == Leader && (forall v :: v in s.nodes ==> s.nodes[v].term < n.term)
            && n.log == before + [EmptyEntry(n.term, |before| + 1)] + Stamp(bodies, n.term, |before| + 1)
            && (forall v :: v in quorum ==>
                  v in s'.nodes && s'.nodes[v].committed >= |n.log| && |s'.nodes[v].log| >= |n.log| && s'.nodes[v].log[..|n.log|] == n.log)
            && (forall v :: v in s.nodes ==> s.nodes[v].committed <= |s.nodes[v].log| && s.nodes[v].log[..s.nodes[v].committed] <= n.log)
  {
    hide IsRun, Stamp, Replicating, Telling, WinsAlone, IsQuorum;
    var p := Path(run, events);
    var q;
    q, c := ElectAndReplicate(g, p, quorum, bodies);
    ReplicatingNode(g, Now(q), c, quorum, {});
    StartTelling(g, Now(q), c, quorum);
    var r := TellAll(g, q, c, quorum, quorum - {c});
    ProlongsTrans(p, q, r);
    run', events' := r.run, r.events;
    TellingNode(Now(r), c, quorum);
    forall v | v in quorum
      ensures v in Now(r).nodes && Now(r).nodes[v].committed >= |Now(r).nodes[c].log|
      ensures |Now(r).nodes[v].log| >= |Now(r).nodes[c].log| && Now(r).nodes[v].log[..|Now(r).nodes[c].log|] == Now(r).nodes[c].log
    {
      ToldAgrees(g, r, c, quorum, v);
    }
    forall v | v in Now(p).nodes
      ensures Now(p).nodes[v].committed <= |Now(p).nodes[v].log|
      ensures Now(p).nodes[v].log[..Now(p).nodes[v].committed] <= Now(r).nodes[c].log
    {
      LeaderHasCommitted(g, p, r, v, c);
    }
  }

  lemma ToldAgrees(g: Group, r: Path, c: Id, quorum: set<Id>, v: Id)
    requires PathOk(g, r) && Telling(Now(r), c, quorum, {}) && v in quorum
    ensures v in Now(r).nodes && Now(r).nodes[v].committed >= |Now(r).nodes[c].log|
    ensures |Now(r).nodes[v].log| >= |Now(r).nodes[c].log| && Now(r).nodes[v].log[..|Now(r).nodes[c].log|] == Now(r).nodes[c].log
  {
    hide IsRun, CaughtUp;
    NodeNow(g, r, v);
    var x, y, k := Now(r).nodes[c], Now(r).nodes[v], |r.run| - 1;
    forall i: nat | i < |x.log|
      ensures y.log[i] == x.log[i]
    {
      StateMachineSafety(g, r.run, r.events, k, k, c, v, i + 1);
    }
  }
}
