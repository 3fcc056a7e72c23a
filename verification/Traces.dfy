/** Building concrete runs of a cluster step by step. */
module Traces {
  import opened Types
  import opened Quorum
  import opened ReadQueue
  import opened RaftNode
  import opened StepHandled
  import opened Cluster
  import opened ReadSafety

  /** A run with the reads that leaders take on in it, by step. */
  datatype Trace = Trace(run: seq<State>, events: seq<Event>, takes: map<nat, (Ctx, nat)>)

  ghost predicate TraceOk(g: Group, tr: Trace) {
    && IsRun(g, tr.run, tr.events)
    && (forall i: nat :: i in tr.takes ==> i < |tr.events|)
    && (forall i: nat :: i < |tr.events| ==>
          Taken(g, tr.run[i], tr.events[i]) == if i in tr.takes then Some(tr.takes[i]) else None)
  }

  function Last(tr: Trace): State
    requires tr.run != []
  {
    tr.run[|tr.run| - 1]
  }

  /** The contexts that clients ask for, in order. */
  function Asks(events: seq<Event>): seq<Ctx> {
    if events == [] then []
    else
      var n := |events| - 1;
      Asks(events[..n]) + if events[n].AskRead? then [events[n].ctx] else []
  }

  lemma AsksMore(events: seq<Event>, e: Event)
    ensures Asks(events + [e]) == Asks(events) + if e.AskRead? then [e.ctx] else []
  {
    assert (events + [e])[..|events|] == events;
  }

  /** `later` continues `tr`. */
  predicate Continues(tr: Trace, later: Trace) {
    tr.run <= later.run && tr.events <= later.events
  }

  /** The trace ends with these nodes, and these messages may arrive. */
  ghost predicate EndsIn(g: Group, tr: Trace, nodes: map<Id, Node>, live: set<Msg>) {
    tr.run != [] && TraceOk(g, tr) && Last(tr).nodes == nodes && live <= Last(tr).live
  }

  lemma Start(g: Group, nodes: map<Id, Node>) returns (tr: Trace)
    requires nodes.Keys == g.peers && forall id :: id in nodes ==> nodes[id] == FreshNode(id, g.peers, nodes[id].priority)
    ensures EndsIn(g, tr, nodes, {}) && tr.takes == map[] && tr.events == []
  {
    tr := Trace([State(nodes, {}, {}, map[], {})], [], map[]);
  }

  lemma Extend(g: Group, tr: Trace, e: Event, s': State) returns (tr': Trace)
    requires TraceOk(g, tr) && Next(g, Last(tr), e, s')
    ensures tr'.run != [] && TraceOk(g, tr') && Continues(tr, tr') && Last(tr') == s' && |tr'.events| == |tr.events| + 1
    ensures var k := Taken(g, Last(tr), e);
            tr'.takes == if k.Some? then tr.takes[|tr.events| := k.value] else tr.takes
    ensures Asks(tr'.events) == Asks(tr.events) + if e.AskRead? then [e.ctx] else []
  {
    hide Next, Taken, Init;
    AsksMore(tr.events, e);
    var k := Taken(g, Last(tr), e);
    tr' := Trace(tr.run + [s'], tr.events + [e], if k.Some? then tr.takes[|tr.events| := k.value] else tr.takes);
    forall i | 0 <= i < |tr'.events|
      ensures Next(g, tr'.run[i], tr'.events[i], tr'.run[i + 1])
      ensures Taken(g, tr'.run[i], tr'.events[i]) == if i in tr'.takes then Some(tr'.takes[i]) else None
    {
      if i < |tr.events| {
        assert Next(g, tr.run[i], tr.events[i], tr.run[i + 1]);
      }
    }
  }

  /** Some of what node `id` sent leaves it. */
  lemma Leave(g: Group, tr: Trace, id: Id, msgs: set<Msg>, nodes: map<Id, Node>, live: set<Msg>) returns (tr': Trace)
    requires EndsIn(g, tr, nodes, live) && id in nodes && msgs <= Last(tr).sent
    requires forall m :: m in msgs ==> m.from == id && MayLeave(nodes[id], m)
    ensures EndsIn(g, tr', nodes, live + msgs) && Continues(tr, tr') && tr'.takes == tr.takes && |tr'.events| == |tr.events| + 1
    ensures Asks(tr'.events) == Asks(tr.events)
  {
    tr' := Extend(g, tr, Release(id, msgs), Last(tr).(live := Last(tr).live + msgs));
  }

  lemma ContinuesTrans(a: Trace, b: Trace, c: Trace)
    requires Continues(a, b) && Continues(b, c)
    ensures Continues(a, c)
  {
  }

  /** A message arrives, and some of the answers leave. */
  lemma Arrive(g: Group, tr: Trace, m: Msg, mci: nat, r: Outcome, msgs: set<Msg>, nodes: map<Id, Node>, live: set<Msg>)
      returns (tr': Trace)
    requires EndsIn(g, tr, nodes, live) && m in live && m.to in nodes && WellFormed(m) && MciOk(g, nodes[m.to], m, mci)
    requires Step(g, nodes[m.to], m, mci) == r && r.Ok?
    requires msgs <= r.out && forall o :: o in msgs ==> o.from == m.to && MayLeave(r.node, o)
    ensures EndsIn(g, tr', nodes[m.to := r.node], live + msgs) && Continues(tr, tr') && |tr'.events| == |tr.events| + 2
    ensures tr'.takes == if TakesRead(g, nodes[m.to], m) then tr.takes[|tr.events| := (m.ctx, nodes[m.to].term)] else tr.takes
    ensures Asks(tr'.events) == Asks(tr.events)
  {
    hide Step, MciOk, WellFormed, TakesRead, TraceOk, MayLeave;
    var s := Last(tr);
    var s' := Apply(Observing(g, s, s.nodes[m.to], m), m.to, r);
    var tr1 := Extend(g, tr, Deliver(m, mci), s');
    tr' := Leave(g, tr1, m.to, msgs, nodes[m.to := r.node], live);
    ContinuesTrans(tr, tr1, tr');
  }

  /** A client asks node `id`, and some of what it sends leaves. */
  lemma Ask(g: Group, tr: Trace, id: Id, c: Ctx, r: Outcome, msgs: set<Msg>, nodes: map<Id, Node>, live: set<Msg>)
      returns (tr': Trace)
    requires EndsIn(g, tr, nodes, live) && id in nodes && Step(g, nodes[id], ReadIndex(NONE, id, c), 0) == r && r.Ok?
    requires msgs <= r.out && forall o :: o in msgs ==> o.from == id && MayLeave(r.node, o)
    ensures EndsIn(g, tr', nodes[id := r.node], live + msgs) && Continues(tr, tr') && |tr'.events| == |tr.events| + 2
    ensures var m := ReadIndex(NONE, id, c);
            tr'.takes == if TakesRead(g, nodes[id], m) then tr.takes[|tr.events| := (c, nodes[id].term)] else tr.takes
    ensures Asks(tr'.events) == Asks(tr.events) + [c]
  {
    hide Step, TakesRead, TraceOk, MayLeave;
    var s := Last(tr);
    var s' := Apply(Observing(g, s, s.nodes[id], ReadIndex(NONE, id, c)), id, r);
    var tr1 := Extend(g, tr, AskRead(id, c), s');
    tr' := Leave(g, tr1, id, msgs, nodes[id := r.node], live);
    ContinuesTrans(tr, tr1, tr');
  }

  lemma TimesOut(g: Group, tr: Trace, id: Id, pre: bool, r: Outcome, msgs: set<Msg>, nodes: map<Id, Node>, live: set<Msg>)
      returns (tr': Trace)
    requires EndsIn(g, tr, nodes, live) && id in nodes && id in Voters(g.cfg) && (pre ==> g.preVote)
    requires Hup(g, nodes[id], pre) == r && r.Ok?
    requires msgs <= r.out && forall o :: o in msgs ==> o.from == id && MayLeave(r.node, o)
    ensures EndsIn(g, tr', nodes[id := r.node], live + msgs) && Continues(tr, tr') && tr'.takes == tr.takes
    ensures |tr'.events| == |tr.events| + 2
    ensures Asks(tr'.events) == Asks(tr.events)
  {
    hide Hup, TraceOk, MayLeave;
    var tr1 := Extend(g, tr, Timeout(id, pre), Apply(Last(tr), id, r));
    tr' := Leave(g, tr1, id, msgs, nodes[id := r.node], live);
    ContinuesTrans(tr, tr1, tr');
  }

  lemma LeaderSend(g: Group, tr: Trace, id: Id, m: Msg, nodes: map<Id, Node>, live: set<Msg>) returns (tr': Trace)
    requires EndsIn(g, tr, nodes, live) && id in nodes && LeaderMay(g, nodes[id], m) && nodes[id].id == id
    ensures EndsIn(g, tr', nodes, live + {m}) && Continues(tr, tr') && tr'.takes == tr.takes && |tr'.events| == |tr.events| + 2
    ensures Asks(tr'.events) == Asks(tr.events)
  {
    hide TraceOk;
    var tr1 := Extend(g, tr, LeaderSends(id, m), Last(tr).(sent := Last(tr).sent + {m}));
    tr' := Leave(g, tr1, id, {m}, nodes, live);
    ContinuesTrans(tr, tr1, tr');
  }

  lemma Persisted(g: Group, tr: Trace, id: Id, index: nat, n: Node, nodes: map<Id, Node>, live: set<Msg>) returns (tr': Trace)
    requires EndsIn(g, tr, nodes, live) && id in nodes && index <= |nodes[id].log| && PersistTo(nodes[id], index, 0) == n
    ensures EndsIn(g, tr', nodes[id := n], live) && Continues(tr, tr') && tr'.takes == tr.takes && |tr'.events| == |tr.events| + 1
    ensures Asks(tr'.events) == Asks(tr.events)
  {
    hide TraceOk;
    tr' := Extend(g, tr, Persist(id, index, 0), Last(tr).(nodes := nodes[id := n]));
  }
}
