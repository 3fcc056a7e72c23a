/** A cluster of nodes and the messages they ever sent. Messages are never removed, so any of them
    may arrive late, again, out of order or not at all. */
module Cluster {
  import opened Types
  import opened Quorum
  import opened ReadQueue
  import opened RaftNode
  import opened History
  import opened Growth
  import opened Invariant
  import opened Moves
  import opened LogMoves
  import opened ReadMoves
  import opened Handlers
  import opened AppendHandled
  import opened StepHandled

  /** `live` are the messages that may arrive; the others wait at their sender. `observed` notes, for
      the first time the leader of a term took on a read, what each node had committed at that moment,
      and `reused` the terms whose leader took on some context again; both are only looked at. */
  datatype State = State(
    nodes: map<Id, Node>,
    sent: set<Msg>,
    live: set<Msg>,
    observed: map<(Ctx, nat), map<Id, nat>>,
    reused: set<nat>)

  datatype Event =
    | Deliver(m: Msg, mci: nat)
    | Timeout(id: Id, pre: bool)
    | Propose(id: Id, bodies: seq<Entry>)
    | LeaderSends(id: Id, m: Msg)
    | Persist(id: Id, index: nat, mci: nat)
    | Release(id: Id, msgs: set<Msg>)
    | StepDown(id: Id)
    | AskRead(id: Id, ctx: Ctx)

  function Commits(s: State): map<Id, nat> {
    map v | v in s.nodes :: s.nodes[v].committed
  }

  function FreshNode(id: Id, peers: set<Id>, priority: int): Node {
    Node(id, 0, NONE, Follower, NONE, [], 0, 0, map[], map p | p in peers :: 0, NoReads, [], priority)
  }

  ghost predicate Init(g: Group, s: State) {
    && s.nodes.Keys == g.peers
    && (forall id :: id in s.nodes ==> s.nodes[id] == FreshNode(id, g.peers, s.nodes[id].priority))
    && s.sent == {} && s.live == {} && s.observed == map[] && s.reused == {}
  }

  /** The node's new state and its messages become part of the cluster. */
  function Apply(s: State, id: Id, r: Outcome): State
    requires r.Ok?
  {
    s.(nodes := s.nodes[id := r.node], sent := s.sent + r.out)
  }

  function Stamp(es: seq<Entry>, term: nat, after: nat): seq<Entry> {
    seq(|es|, i requires 0 <= i < |es| => es[i].(term := term, index := after + i + 1))
  }

  /** Vote requests leave a candidate only when the log it campaigns with is persisted. The other
      messages of a node that does not lead wait for what it wrote before them; nothing depends on that
      here, where no node loses what it has. */
  predicate MayLeave(n: Node, m: Msg) {
    m.RequestVote? && !m.pre && n.role == Candidate && m.term == n.term ==> n.persisted == |n.log|
  }

  /** When a leader takes on a read, the first time of its context in the term is observed with what
      every node has committed, and any later one is noted. */
  function Observing(g: Group, s: State, n: Node, m: Msg): State {
    if !TakesRead(g, n, m) then s
    else if (m.ctx, n.term) !in s.observed then s.(observed := s.observed[(m.ctx, n.term) := Commits(s)])
    else if Retaken(g, s.observed.Keys, m.ctx, n.term) then s.(reused := s.reused + {n.term})
    else s
  }

  /** A message is handled by its receiver. */
  ghost predicate Handles(g: Group, s: State, m: Msg, mci: nat, s': State) {
    && m.to in s.nodes && WellFormed(m)
    && var n := s.nodes[m.to];
       var r := Step(g, n, m, mci);
       && r.Ok?
       && MciOk(g, n, m, mci)
       && s' == Apply(Observing(g, s, n, m), m.to, r)
  }

  ghost predicate Next(g: Group, s: State, e: Event, s': State) {
    match e
    case Deliver(m, mci) =>
      m in s.live && Handles(g, s, m, mci, s')
    case Timeout(id, pre) =>
      // only voters time out; pre-votes are used when configured, except for a leader transfer
      && id in s.nodes && id in Voters(g.cfg)
      && (pre ==> g.preVote)
      && Hup(g, s.nodes[id], pre).Ok?
      && s' == Apply(s, id, Hup(g, s.nodes[id], pre))
    case Propose(id, bodies) =>
      && id in s.nodes && s.nodes[id].role == Leader
      && var n := s.nodes[id];
         s' == s.(nodes := s.nodes[id := n.(log := n.log + Stamp(bodies, n.term, |n.log|))])
    case LeaderSends(id, m) =>
      && id in s.nodes && LeaderMay(g, s.nodes[id], m)
      && s' == s.(sent := s.sent + {m})
    case Persist(id, index, mci) =>
      && id in s.nodes && index <= |s.nodes[id].log|
      && Committable(g, Acknowledge(s.nodes[id], id, index).matched, mci)
      && s' == s.(nodes := s.nodes[id := PersistTo(s.nodes[id], index, mci)])
    case Release(id, msgs) =>
      && id in s.nodes && msgs <= s.sent
      && (forall m :: m in msgs ==> m.from == id && MayLeave(s.nodes[id], m))
      && s' == s.(live := s.live + msgs)
    case StepDown(id) =>
      // a leader gives up when it has not heard from a quorum, which never happens to one that is a quorum
      && id in s.nodes && s.nodes[id].role == Leader && !WinsAlone(g, id)
      && s' == s.(nodes := s.nodes[id := BecomeFollower(s.nodes[id], s.nodes[id].term, NONE)])
    case AskRead(id, ctx) =>
      Handles(g, s, ReadIndex(NONE, id, ctx), 0, s')
  }

  ghost predicate IsRun(g: Group, run: seq<State>, events: seq<Event>) {
    && |run| == |events| + 1
    && Init(g, run[0])
    && forall i :: 0 <= i < |events| ==> Next(g, run[i], events[i], run[i + 1])
  }

  // ----- the invariant of the cluster

  ghost predicate NodesOk(g: Group, h: Hist, s: State) {
    && s.nodes.Keys == g.peers
    && forall id :: id in s.nodes ==> s.nodes[id].id == id && NodeOk(g, h, s.nodes[id])
  }

  ghost predicate AllSent(g: Group, h: Hist, sent: set<Msg>) {
    forall m :: m in sent ==> MsgOk(g, h, m)
  }

  ghost predicate ObservedOk(h: Hist, s: State) {
    && h.asked.Keys == s.observed.Keys
    && (forall k :: k in s.observed ==> h.asked[k].commits == s.observed[k])
    && h.reused == s.reused
  }

  ghost predicate Inv(g: Group, h: Hist, s: State) {
    && GroupOk(g)
    && HistOk(g, h)
    && NodesOk(g, h, s)
    && AllSent(g, h, s.sent)
    && s.live <= s.sent
    && ObservedOk(h, s)
  }

  const EMPTY_HIST: Hist := Hist(map[], map[], map[], map[], map[], map[], map[], {})

  lemma InitInv(g: Group, s: State) returns (h: Hist)
    requires GroupOk(g) && Init(g, s)
    ensures Inv(g, h, s)
  {
    h := EMPTY_HIST;
    forall id | id in s.nodes
      ensures s.nodes[id].id == id && NodeOk(g, h, s.nodes[id])
    {
      FreshNodeOk(g, h, id, s.nodes[id].priority);
    }
  }

  lemma FreshNodeOk(g: Group, h: Hist, id: Id, priority: int)
    requires id in g.peers && h == EMPTY_HIST
    ensures NodeOk(g, h, FreshNode(id, g.peers, priority))
  {
  }

  lemma NodesMove(g: Group, h: Hist, h': Hist, s: State, id: Id, n': Node)
    requires NodesOk(g, h, s) && HistOk(g, h) && id in s.nodes
    requires Move(id, h, h') && n'.id == id && NodeOk(g, h', n')
    ensures NodesOk(g, h', s.(nodes := s.nodes[id := n']))
  {
    hide NodeOk, HistOk, Move, ClaimsOk;
    HistClaims(g, h);
    forall v | v in s.nodes && v != id
      ensures NodeOk(g, h', s.nodes[v])
    {
      NodeOkElsewhere(g, h, h', id, s.nodes[v]);
    }
  }

  lemma SentGrow(g: Group, h: Hist, h': Hist, sent: set<Msg>, out: set<Msg>)
    requires Grows(h, h') && AllSent(g, h, sent) && Sends(g, h', out)
    ensures AllSent(g, h', sent + out)
  {
    hide Grows, MsgOk;
    forall m | m in sent
      ensures MsgOk(g, h', m)
    {
      MsgOkGrows(g, h, h', m);
    }
  }

  lemma ApplyInv(g: Group, h: Hist, s: State, id: Id, h': Hist, r: Outcome)
    requires Inv(g, h, s) && id in s.nodes
    requires r.Ok? && Handled(g, h, s.nodes[id], h', r)
    ensures Inv(g, h', Apply(s, id, r))
    ensures Grows(h, h')
  {
    hide NodeOk, HistOk, MsgOk;
    NodesMove(g, h, h', s, id, r.node);
    SentGrow(g, h, h', s.sent, r.out);
  }

  lemma ReadyNode(g: Group, h: Hist, s: State, id: Id)
    requires Inv(g, h, s) && id in s.nodes
    ensures Ready(g, h, s.nodes[id]) && s.nodes[id].id == id
  {
  }

  lemma CommitsAreReal(g: Group, h: Hist, s: State)
    requires Inv(g, h, s)
    ensures CommitsReal(h, Commits(s))
  {
    hide HistOk, NodeOk;
    forall v | v in Commits(s) && Commits(s)[v] > 0
      ensures exists t :: t in h.cmt && Commits(s)[v] <= h.cmt[t]
    {
      NodeFacts(g, h, s.nodes[v]);
    }
  }

  lemma ReadTakenInv(g: Group, h: Hist, s: State, m: Msg, h': Hist, r: Outcome)
    requires Inv(g, h, s) && m.to in s.nodes && TakesRead(g, s.nodes[m.to], m)
    requires ReadTaken(g, h, s.nodes[m.to], m.ctx, Commits(s), h', r)
    ensures Inv(g, h', Apply(Observing(g, s, s.nodes[m.to], m), m.to, r))
    ensures Grows(h, h')
  {
    hide NodeOk, HistOk, MsgOk, TakesRead, Grows, AllSent, ObservedOk, Retaken, Move;
    ReadObserved(g, h, s, m, h', r);
    assert s.nodes[m.to].id == m.to;
    hide NodesOk;
    NodesMove(g, h, h', s, m.to, r.node);
    MoveGrows(s.nodes[m.to].id, h, h');
    SentGrow(g, h, h', s.sent, r.out);
  }

  lemma ReadObserved(g: Group, h: Hist, s: State, m: Msg, h': Hist, r: Outcome)
    requires ObservedOk(h, s) && m.to in s.nodes && TakesRead(g, s.nodes[m.to], m)
    requires ReadTaken(g, h, s.nodes[m.to], m.ctx, Commits(s), h', r)
    ensures ObservedOk(h', Apply(Observing(g, s, s.nodes[m.to], m), m.to, r))
  {
    hide NodeOk, HistOk, MsgOk, Move, Sends;
    var n := s.nodes[m.to];
    var s' := Observing(g, s, n, m);
    if (m.ctx, n.term) !in s.observed {
      assert h'.asked.Keys == h.asked.Keys + {(m.ctx, n.term)};
      assert s'.observed.Keys == s.observed.Keys + {(m.ctx, n.term)};
    }
  }

  lemma HandlesInv(g: Group, h: Hist, s: State, m: Msg, mci: nat, s': State) returns (h': Hist)
    requires Inv(g, h, s) && Handles(g, s, m, mci, s') && MsgOk(g, h, m)
    ensures Inv(g, h', s') && Grows(h, h')
  {
    hide HistOk, NodeOk, MsgOk, Dispatch, HandleReadIndex;
    var n := s.nodes[m.to];
    ReadyNode(g, h, s, m.to);
    if TakesRead(g, n, m) {
      CommitsAreReal(g, h, s);
      h' := ReadIndexTaken(g, h, n, m, Commits(s));
      StepIsReadIndex(g, n, m, mci);
      ReadTakenInv(g, h, s, m, h', Step(g, n, m, mci));
    } else {
      h' := StepKeeps(g, h, n, m, mci);
      ApplyInv(g, h, s, m.to, h', Step(g, n, m, mci));
    }
  }

  lemma StepIsReadIndex(g: Group, n: Node, m: Msg, mci: nat)
    requires WellFormed(m) && TakesRead(g, n, m)
    ensures Step(g, n, m, mci) == HandleReadIndex(g, n, m)
  {
  }

  lemma HupHandled(g: Group, h: Hist, n: Node, pre: bool) returns (h': Hist)
    requires Ready(g, h, n) && n.id in Voters(g.cfg) && (pre ==> g.preVote)
    ensures Handled(g, h, n, h', Hup(g, n, pre))
  {
    hide HistOk, NodeOk, Campaign, PreCampaign;
    if n.role == Leader {
      h' := h;
      StayMoved(g, h, n);
    } else if pre {
      h' := PreCampaignHandled(g, h, n);
    } else {
      h' := CampaignHandled(g, h, n);
    }
  }

  lemma StampOwn(es: seq<Entry>, term: nat, after: nat)
    ensures OwnEntries(Stamp(es, term, after), term, after)
  {
  }

  /** Every step keeps the invariant, and the history only grows. */
  lemma NextInv(g: Group, h: Hist, s: State, e: Event, s': State) returns (h': Hist)
    requires Inv(g, h, s) && Next(g, s, e, s')
    ensures Inv(g, h', s') && Grows(h, h')
  {
    hide Inv, Handles, Hup, LeaderMay, PersistTo, Grows, Acknowledge;
    GrowsRefl(h);
    match e
    case Deliver(m, mci) =>
      LiveMsgOk(g, h, s, m);
      h' := HandlesInv(g, h, s, m, mci, s');
    case AskRead(id, ctx) =>
      h' := HandlesInv(g, h, s, ReadIndex(NONE, id, ctx), 0, s');
    case Timeout(id, pre) =>
      h' := TimeoutInv(g, h, s, id, pre);
    case Propose(id, bodies) =>
      h' := ProposeInv(g, h, s, id, bodies);
    case LeaderSends(id, m) =>
      h' := h;
      SendsInv(g, h, s, id, m);
    case Persist(id, index, mci) =>
      h' := PersistInv(g, h, s, id, index, mci);
    case Release(id, msgs) =>
      h' := h;
      ReleaseInv(g, h, s, msgs);
    case StepDown(id) =>
      h' := h;
      StepDownInv(g, h, s, id);
  }

  lemma LiveMsgOk(g: Group, h: Hist, s: State, m: Msg)
    requires Inv(g, h, s) && m in s.live
    ensures MsgOk(g, h, m)
  {
    hide HistOk, NodeOk, MsgOk;
  }

  lemma ReleaseInv(g: Group, h: Hist, s: State, msgs: set<Msg>)
    requires Inv(g, h, s) && msgs <= s.sent
    ensures Inv(g, h, s.(live := s.live + msgs))
  {
    hide HistOk, NodeOk, MsgOk;
  }

  lemma LocalInv(g: Group, h: Hist, s: State, id: Id, h': Hist, n': Node)
    requires Inv(g, h, s) && id in s.nodes && Moved(g, h, s.nodes[id], h', n')
    ensures Inv(g, h', s.(nodes := s.nodes[id := n'])) && Grows(h, h')
  {
    hide NodeOk, HistOk, MsgOk;
    var r := Ok(n', {});
    ApplyInv(g, h, s, id, h', r);
    assert Apply(s, id, r) == s.(nodes := s.nodes[id := n']);
  }

  lemma TimeoutInv(g: Group, h: Hist, s: State, id: Id, pre: bool) returns (h': Hist)
    requires Inv(g, h, s) && id in s.nodes && id in Voters(g.cfg) && (pre ==> g.preVote)
    requires Hup(g, s.nodes[id], pre).Ok?
    ensures Inv(g, h', Apply(s, id, Hup(g, s.nodes[id], pre))) && Grows(h, h')
  {
    hide HistOk, NodeOk, MsgOk, Hup;
    ReadyNode(g, h, s, id);
    h' := HupHandled(g, h, s.nodes[id], pre);
    ApplyInv(g, h, s, id, h', Hup(g, s.nodes[id], pre));
  }

  lemma ProposeInv(g: Group, h: Hist, s: State, id: Id, bodies: seq<Entry>) returns (h': Hist)
    requires Inv(g, h, s) && id in s.nodes && s.nodes[id].role == Leader
    ensures var n := s.nodes[id];
            Inv(g, h', s.(nodes := s.nodes[id := n.(log := n.log + Stamp(bodies, n.term, |n.log|))])) && Grows(h, h')
  {
    hide HistOk, NodeOk, MsgOk;
    ReadyNode(g, h, s, id);
    var n := s.nodes[id];
    StampOwn(bodies, n.term, |n.log|);
    h' := LeaderAppendMove(g, h, n, Stamp(bodies, n.term, |n.log|));
    LocalInv(g, h, s, id, h', n.(log := n.log + Stamp(bodies, n.term, |n.log|)));
  }

  lemma SendsInv(g: Group, h: Hist, s: State, id: Id, m: Msg)
    requires Inv(g, h, s) && id in s.nodes && LeaderMay(g, s.nodes[id], m)
    ensures Inv(g, h, s.(sent := s.sent + {m}))
  {
    hide HistOk, NodeOk, MsgOk, LeaderMay, LeadsOk;
    HistAsks(g, h);
    LeaderMessageOk(g, h, s.nodes[id], m);
  }

  lemma PersistInv(g: Group, h: Hist, s: State, id: Id, index: nat, mci: nat) returns (h': Hist)
    requires Inv(g, h, s) && id in s.nodes && index <= |s.nodes[id].log|
    requires Committable(g, Acknowledge(s.nodes[id], id, index).matched, mci)
    ensures Inv(g, h', s.(nodes := s.nodes[id := PersistTo(s.nodes[id], index, mci)])) && Grows(h, h')
  {
    hide HistOk, NodeOk, MsgOk, PersistTo;
    ReadyNode(g, h, s, id);
    h' := PersistMoved(g, h, s.nodes[id], index, mci);
    LocalInv(g, h, s, id, h', PersistTo(s.nodes[id], index, mci));
  }

  lemma StepDownInv(g: Group, h: Hist, s: State, id: Id)
    requires Inv(g, h, s) && id in s.nodes
    ensures Inv(g, h, s.(nodes := s.nodes[id := BecomeFollower(s.nodes[id], s.nodes[id].term, NONE)]))
  {
    hide HistOk, NodeOk, MsgOk;
    ReadyNode(g, h, s, id);
    StepDownMoved(g, h, s.nodes[id]);
    LocalInv(g, h, s, id, h, BecomeFollower(s.nodes[id], s.nodes[id].term, NONE));
  }

  // ----- whole runs

  ghost predicate Explains(g: Group, hs: seq<Hist>, run: seq<State>) {
    && |hs| == |run|
    && (forall i :: 0 <= i < |run| ==> Inv(g, hs[i], run[i]))
    && (forall i, j :: 0 <= i <= j < |run| ==> Grows(hs[i], hs[j]))
  }

  /** Every run has histories that justify it and only grow along it. */
  lemma {:induction false} RunExplained(g: Group, run: seq<State>, events: seq<Event>) returns (hs: seq<Hist>)
    requires GroupOk(g) && IsRun(g, run, events)
    ensures Explains(g, hs, run)
    decreases |run|
  {
    hide Inv, Next, Grows;
    if events == [] {
      var h := InitInv(g, run[0]);
      GrowsRefl(h);
      hs := [h];
    } else {
      var k := |events| - 1;
      assert IsRun(g, run[..k + 1], events[..k]);
      var hs0 := RunExplained(g, run[..k + 1], events[..k]);
      var h' := NextInv(g, hs0[k], run[k], events[k], run[k + 1]);
      hs := hs0 + [h'];
      GrowsRefl(h');
      forall i | 0 <= i <= k
        ensures Grows(hs[i], h')
      {
        GrowsTrans(hs0[i], hs0[k], h');
      }
      forall i | 0 <= i < |run|
        ensures Inv(g, hs[i], run[i])
      {
        if i <= k {
          assert run[..k + 1][i] == run[i];
        }
      }
    }
  }
}
