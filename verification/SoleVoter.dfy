/** A node whose own vote decides, and why the assertion in `become_leader` never fails. */
module SoleVoter {
  import opened Types
  import opened Quorum
  import opened ReadQueue
  import opened RaftNode
  import opened History
  import opened Growth
  import opened Invariant
  import opened StepHandled
  import opened Cluster
  import opened NoPanic

  /** A node whose own vote decides is the only voter. */
  lemma DecidesAlone(g: Group, id: Id)
    requires GroupOk(g) && WinsAlone(g, id)
    ensures Voters(g.cfg) == {id}
  {
    hide JointVote;
    WonIsQuorum(g.cfg, map[id := true]);
    var y := Yes(Voters(g.cfg), map[id := true]);
    assert y <= {id};
    OnlyOne(g.cfg.incoming, y, id);
    OnlyOne(g.cfg.outgoing, y, id);
  }

  lemma OnlyOne(voters: set<Id>, s: set<Id>, id: Id)
    requires HasMajority(voters, s) && s <= {id}
    ensures voters == {} || voters == {id}
  {
    if voters != {} {
      SubsetSize(voters * s, {id});
      assert |voters| <= 1;
      var v :| v in voters * s;
      SubsetSize({id}, voters);
    }
  }

  /** The only voter has not done anything yet, or it leads. */
  ghost predicate SoleNode(n: Node) {
    n.role == Leader || (n.role == Follower && n.term == 0 && n.log == [] && n.persisted == 0)
  }

  ghost predicate Quiet(m: Msg, term: nat) {
    !m.RequestVote? && !m.VoteResp? && (m.ReadIndex? || m.term <= term)
  }

  /** Nobody else campaigns, and no term is later than the only voter's. */
  ghost predicate SoleOk(s: State, id: Id) {
    && id in s.nodes && SoleNode(s.nodes[id])
    && (forall v :: v in s.nodes && v != id ==> s.nodes[v].role == Follower && s.nodes[v].term <= s.nodes[id].term)
    && (forall m :: m in s.sent ==> Quiet(m, s.nodes[id].term))
  }

  lemma LeaderStays(g: Group, n: Node, m: Msg, mci: nat)
    requires n.role == Leader && WellFormed(m) && Quiet(m, n.term) && Step(g, n, m, mci).Ok?
    requires m.ReadIndex? || m.term > 0
    ensures var r := Step(g, n, m, mci);
            r.node.role == Leader && r.node.term == n.term && forall o :: o in r.out ==> Quiet(o, n.term)
  {
    hide HandleHeartbeatResponse;
    if m.HeartbeatResp? && m.term == n.term {
      ResponseQuiet(g, n, m);
    }
  }

  lemma ResponseQuiet(g: Group, n: Node, m: Msg)
    requires m.HeartbeatResp? && HandleHeartbeatResponse(g, n, m).Ok?
    ensures var r := HandleHeartbeatResponse(g, n, m);
            r.node.role == n.role && r.node.term == n.term && forall o :: o in r.out ==> Quiet(o, n.term)
  {
    hide JointVote, Released, Advance, CanAdvance;
    var n1 := n.(waiting := RecvAck(n.waiting, m.from, m.ctx));
    if CanAdvance(n1.waiting, m.ctx) {
      ReleasedPending(n1.waiting, m.ctx);
      RespondAllQuiet(n1.(waiting := Advance(n1.waiting, m.ctx)), Released(n1.waiting, m.ctx), n1.waiting.pending);
    }
  }

  lemma {:induction false} RespondAllQuiet(n: Node, released: seq<Ctx>, pending: map<Ctx, ReadStatus>)
    requires forall c :: c in released ==> c in pending
    ensures RespondAll(n, released, pending).0.role == n.role && RespondAll(n, released, pending).0.term == n.term
    ensures forall o :: o in RespondAll(n, released, pending).1 ==> Quiet(o, n.term)
    decreases |released|
  {
    if released != [] {
      var st := pending[released[0]];
      RespondAllQuiet(Respond(n, st.from, released[0], st.index).0, released[1..], pending);
    }
  }

  lemma AppendQuiet(n: Node, m: Msg)
    requires m.Append? && Follows(m.entries, m.index) && HandleAppend(n, m).Ok?
    ensures var r := HandleAppend(n, m);
            r.node.role == n.role && r.node.term == n.term && forall o :: o in r.out ==> Quiet(o, n.term)
  {
    hide FindConflict, FindConflictByTerm, Follows;
  }

  lemma FollowerStays(g: Group, n: Node, m: Msg, mci: nat)
    requires n.role == Follower && WellFormed(m) && Step(g, n, m, mci).Ok? && (m.ReadIndex? || m.term > 0)
    requires !m.RequestVote? && !m.VoteResp?
    ensures var r := Step(g, n, m, mci);
            && r.node.role == Follower
            && r.node.term == (if m.ReadIndex? || m.term <= n.term then n.term else m.term)
            && forall o :: o in r.out ==> Quiet(o, r.node.term)
    ensures m.ReadIndex? ==> Step(g, n, m, mci).node == n
  {
    hide HandleAppend, HandleHeartbeatResponse;
    if m.Append? && m.term >= n.term {
      AppendQuiet(CatchUp(n, m).(leaderId := m.from), m);
    }
  }

  lemma HandlesSole(g: Group, h: Hist, s: State, m: Msg, mci: nat, s': State, id: Id)
    requires Inv(g, h, s) && SoleOk(s, id) && Handles(g, s, m, mci, s')
    requires Quiet(m, s.nodes[id].term) && (m.ReadIndex? || m.term > 0)
    ensures SoleOk(s', id)
  {
    hide Inv, Step, MciOk, TakesRead;
    var n := s.nodes[m.to];
    if n.role == Leader {
      LeaderStays(g, n, m, mci);
    } else {
      FollowerStays(g, n, m, mci);
    }
  }

  lemma HupSole(g: Group, n: Node, pre: bool)
    requires WinsAlone(g, n.id) && Voters(g.cfg) == {n.id} && SoleNode(n) && Hup(g, n, pre).Ok?
    ensures var r := Hup(g, n, pre); r.node.role == Leader && r.node.term >= n.term && r.out == {}
  {
    hide JointVote;
    SoleVoteRecorded(n, n.id);
    var c := WithVote(BecomePreCandidate(n), n.id, true);
    assert c.votes == map[n.id := true];
    SoleVoteRecorded(c, n.id);
  }

  lemma TimeoutSole(g: Group, s: State, pre: bool, id: Id)
    requires SoleOk(s, id) && WinsAlone(g, id) && Voters(g.cfg) == {id} && s.nodes[id].id == id
    requires Hup(g, s.nodes[id], pre).Ok?
    ensures SoleOk(Apply(s, id, Hup(g, s.nodes[id], pre)), id)
  {
    hide Hup, WinsAlone;
    HupSole(g, s.nodes[id], pre);
  }

  /** A step of one node that keeps its term and role. */
  lemma LocalSole(s: State, v: Id, n': Node, id: Id)
    requires SoleOk(s, id) && v in s.nodes
    requires n'.term == s.nodes[v].term && n'.role == s.nodes[v].role && (SoleNode(s.nodes[v]) ==> SoleNode(n'))
    ensures SoleOk(s.(nodes := s.nodes[v := n']), id)
  {
  }

  lemma NextSole(g: Group, h: Hist, s: State, e: Event, s': State, id: Id)
    requires Inv(g, h, s) && Next(g, s, e, s') && SoleOk(s, id) && WinsAlone(g, id)
    ensures SoleOk(s', id)
  {
    hide Inv, Handles, Hup, PersistTo, Acknowledge, SoleNode, WinsAlone, Stamp;
    InvGroup(g, h, s);
    InvIds(g, h, s);
    DecidesAlone(g, id);
    match e
    case Deliver(m, mci) =>
      LiveWellFormed(g, h, s, m);
      LiveSent(g, h, s);
      HandlesSole(g, h, s, m, mci, s', id);
    case AskRead(v, ctx) => HandlesSole(g, h, s, ReadIndex(NONE, v, ctx), 0, s', id);
    case Timeout(v, pre) => TimeoutSole(g, s, pre, id);
    case Persist(v, index, mci) =>
      PersistSole(s.nodes[v], index, mci);
      LocalSole(s, v, s'.nodes[v], id);
    case Propose(v, bodies) =>
      LeadsSole(s'.nodes[v]);
      LocalSole(s, v, s'.nodes[v], id);
    case LeaderSends(v, m) =>
    case Release(v, msgs) =>
    case StepDown(v) =>
  }

  lemma LeadsSole(n: Node)
    ensures n.role == Leader ==> SoleNode(n)
  {
  }

  lemma InvGroup(g: Group, h: Hist, s: State)
    requires Inv(g, h, s)
    ensures GroupOk(g)
  {
  }

  lemma PersistSole(n: Node, index: nat, mci: nat)
    requires index <= |n.log|
    ensures PersistTo(n, index, mci).role == n.role && PersistTo(n, index, mci).term == n.term
    ensures SoleNode(n) ==> SoleNode(PersistTo(n, index, mci))
  {
  }

  lemma {:induction false} RunSole(g: Group, run: seq<State>, events: seq<Event>, hs: seq<Hist>, j: nat, id: Id)
    requires IsRun(g, run, events) && Explains(g, hs, run) && j < |run|
    requires GroupOk(g) && WinsAlone(g, id)
    ensures SoleOk(run[j], id)
    decreases j
  {
    hide Inv, Next, Grows, WinsAlone;
    if j == 0 {
      DecidesAlone(g, id);
      assert Init(g, run[0]);
      assert id in Voters(g.cfg);
    } else {
      RunSole(g, run, events, hs, j - 1, id);
      NextSole(g, hs[j - 1], run[j - 1], events[j - 1], run[j], id);
    }
  }

  /** No timeout ever fails: only a node whose own vote decides could become leader with a log that is
      not persisted, and such a node leads from its first election on. */
  lemma TimeoutNeverFails(g: Group, run: seq<State>, events: seq<Event>, j: nat, id: Id, pre: bool)
    requires GroupOk(g) && IsRun(g, run, events) && j < |run| && id in run[j].nodes
    ensures Hup(g, run[j].nodes[id], pre).Ok?
  {
    hide Inv, Next, Hup, WinsAlone, Grows;
    var hs := RunExplained(g, run, events);
    InvIds(g, hs[j], run[j]);
    TimeoutFailsExactly(g, run[j].nodes[id], pre);
    if WinsAlone(g, id) {
      RunSole(g, run, events, hs, j, id);
    }
  }
}
