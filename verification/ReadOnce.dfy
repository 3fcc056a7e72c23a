/** Reads of clients: each context is asked for once, and the network delivers a forwarded read once. */
module ReadOnce {
  import opened Types
  import opened Quorum
  import opened ReadQueue
  import opened RaftNode
  import opened StepHandled
  import opened Cluster
  import opened Safety
  import opened ReadSafety

  predicate ReadFor(m: Msg, c: Ctx) {
    m.ReadIndex? && m.ctx == c
  }

  predicate AsksFor(e: Event, c: Ctx) {
    e.AskRead? && e.ctx == c
  }

  /** No two requests of clients have the same context. */
  predicate AskedOnce(events: seq<Event>) {
    forall i, j :: 0 <= i < j < |events| && events[i].AskRead? && events[j].AskRead? ==> events[i].ctx != events[j].ctx
  }

  /** No forwarded read is delivered again. */
  predicate DeliveredOnce(events: seq<Event>) {
    forall i, j :: 0 <= i < j < |events| && events[i].Deliver? && events[i].m.ReadIndex? ==> !Delivers(events[j], events[i].m)
  }

  predicate Delivers(e: Event, m: Msg) {
    e.Deliver? && e.m == m
  }

  // ----- one step passes a read on at most once

  /** The messages sent for a message `m`: reads only for a read that is not taken on, and at most one. */
  predicate PassesOn(g: Group, n: Node, m: Msg, out: set<Msg>) {
    && (forall o :: o in out && o.ReadIndex? ==> m.ReadIndex? && o.ctx == m.ctx && !TakesRead(g, n, m))
    && (forall o, o' :: o in out && o' in out && o.ReadIndex? && o'.ReadIndex? ==> o == o')
  }

  predicate NoReadsIn(out: set<Msg>) {
    forall o :: o in out ==> !o.ReadIndex?
  }

  lemma HupSendsNoReads(g: Group, n: Node, pre: bool)
    ensures Hup(g, n, pre).Ok? ==> NoReadsIn(Hup(g, n, pre).out)
  {
    hide JointVote;
  }

  lemma PollSendsNoReads(g: Group, n: Node, m: Msg)
    requires m.VoteResp?
    ensures HandleVoteResponse(g, n, m).Ok? ==> NoReadsIn(HandleVoteResponse(g, n, m).out)
  {
    hide JointVote, MaybeCommitByVote;
  }

  lemma {:induction false} AnswersAreNoReads(n: Node, released: seq<Ctx>, pending: map<Ctx, ReadStatus>)
    requires forall c :: c in released ==> c in pending
    ensures NoReadsIn(RespondAll(n, released, pending).1)
    decreases |released|
  {
    if released != [] {
      var st := pending[released[0]];
      AnswersAreNoReads(Respond(n, st.from, released[0], st.index).0, released[1..], pending);
    }
  }

  lemma ConfirmsSendNoReads(g: Group, n: Node, m: Msg)
    requires m.HeartbeatResp?
    ensures HandleHeartbeatResponse(g, n, m).Ok? ==> NoReadsIn(HandleHeartbeatResponse(g, n, m).out)
  {
    hide JointVote, Released, Advance, CanAdvance;
    var n1 := n.(waiting := RecvAck(n.waiting, m.from, m.ctx));
    if CanAdvance(n1.waiting, m.ctx) {
      ReleasedPending(n1.waiting, m.ctx);
      AnswersAreNoReads(n1.(waiting := Advance(n1.waiting, m.ctx)), Released(n1.waiting, m.ctx), n1.waiting.pending);
    }
  }

  lemma AppendsSendNoReads(n: Node, m: Msg)
    requires m.Append? && Follows(m.entries, m.index)
    ensures HandleAppend(n, m).Ok? ==> NoReadsIn(HandleAppend(n, m).out)
  {
    hide FindConflict, FindConflictByTerm, Follows, AppendFrom;
  }

  lemma DispatchPassesOn(g: Group, n: Node, m: Msg, mci: nat)
    requires WellFormed(m) && Dispatch(g, n, m, mci).Ok?
    ensures PassesOn(g, n, m, Dispatch(g, n, m, mci).out)
  {
    hide HandleAppend, HandleVoteResponse, HandleHeartbeatResponse, MaybeCommitByVote, Grants;
    if m.Append? && n.role != Leader {
      AppendsSendNoReads(if n.role == Follower then n.(leaderId := m.from) else BecomeFollower(n, m.term, m.from), m);
    } else if m.VoteResp? {
      PollSendsNoReads(g, n, m);
    } else if m.HeartbeatResp? {
      ConfirmsSendNoReads(g, n, m);
    }
  }

  lemma StepPassesOn(g: Group, n: Node, m: Msg, mci: nat)
    requires WellFormed(m) && Step(g, n, m, mci).Ok?
    ensures PassesOn(g, n, m, Step(g, n, m, mci).out)
  {
    hide Dispatch;
    if m.ReadIndex? || m.term == 0 {
      DispatchPassesOn(g, n, m, mci);
    } else if m.term >= n.term {
      DispatchPassesOn(g, CatchUp(n, m), m, mci);
    }
  }

  // ----- one step of the cluster

  /** A leader takes on the context. */
  predicate TakesFor(g: Group, s: State, e: Event, c: Ctx) {
    Taken(g, s, e).Some? && Taken(g, s, e).value.0 == c
  }

  /** The step is about a read of context `c`. */
  predicate Carries(e: Event, c: Ctx) {
    AsksFor(e, c) || (e.Deliver? && ReadFor(e.m, c))
  }

  /** What a step does to the reads of context `c` on their way. */
  ghost predicate Passes(g: Group, s: State, e: Event, s': State, c: Ctx) {
    && s.sent <= s'.sent && s'.live <= s.live + s'.sent
    && (e.Deliver? ==> e.m in s.live)
    && (forall o :: o in s'.sent - s.sent && ReadFor(o, c) ==> Carries(e, c) && !TakesFor(g, s, e, c))
    && (forall o, o' :: o in s'.sent - s.sent && o' in s'.sent - s.sent && ReadFor(o, c) && ReadFor(o', c) ==> o == o')
    && (TakesFor(g, s, e, c) ==> Carries(e, c))
  }

  lemma HandlesPasses(g: Group, s: State, e: Event, m: Msg, mci: nat, s': State, c: Ctx)
    requires Handles(g, s, m, mci, s')
    requires (e == Deliver(m, mci) && m in s.live) || (e.AskRead? && m == ReadIndex(NONE, e.id, e.ctx))
    ensures Passes(g, s, e, s', c)
  {
    hide Step, MciOk, CommittedInTerm, IsSingleton;
    StepPassesOn(g, s.nodes[m.to], m, mci);
  }

  lemma QuietPasses(g: Group, s: State, e: Event, s': State, c: Ctx)
    requires !e.Deliver? && !e.AskRead?
    requires s.sent <= s'.sent && s'.live <= s.live + s'.sent && NoReadsIn(s'.sent - s.sent)
    ensures Passes(g, s, e, s', c)
  {
  }

  lemma NextPasses(g: Group, s: State, e: Event, s': State, c: Ctx)
    requires Next(g, s, e, s')
    ensures Passes(g, s, e, s', c)
  {
    hide Handles, Hup, Acknowledge, PersistTo, Passes, Committable, MayLeave, CanAnchor;
    match e
    case Deliver(m, mci) => HandlesPasses(g, s, e, m, mci, s', c);
    case AskRead(id, ctx) => HandlesPasses(g, s, e, ReadIndex(NONE, id, ctx), 0, s', c);
    case Timeout(id, pre) =>
      HupSendsNoReads(g, s.nodes[id], pre);
      QuietPasses(g, s, e, s', c);
    case _ => QuietPasses(g, s, e, s', c);
  }

  // ----- whole runs

  ghost predicate Delivered(events: seq<Event>, j: nat, m: Msg)
    requires j <= |events|
  {
    exists i: nat :: i < j && Delivers(events[i], m)
  }

  ghost predicate AskedBefore(events: seq<Event>, j: nat, c: Ctx)
    requires j <= |events|
  {
    exists i: nat :: i < j && AsksFor(events[i], c)
  }

  ghost predicate TakenBefore(g: Group, run: seq<State>, events: seq<Event>, j: nat, c: Ctx)
    requires j <= |events| < |run|
  {
    exists p: nat :: p < j && TakesFor(g, run[p], events[p], c)
  }

  ghost predicate OnItsWay(s: State, events: seq<Event>, j: nat, m: Msg, c: Ctx)
    requires j <= |events|
  {
    m in s.sent && ReadFor(m, c) && !Delivered(events, j, m)
  }

  /** A read is on its way in at most one message, and in none once a leader has taken it on. */
  ghost predicate OneToken(g: Group, run: seq<State>, events: seq<Event>, j: nat, c: Ctx)
    requires j <= |events| < |run|
  {
    && run[j].live <= run[j].sent
    && (forall m :: m in run[j].sent && ReadFor(m, c) ==> AskedBefore(events, j, c))
    && (forall m, m' :: OnItsWay(run[j], events, j, m, c) && OnItsWay(run[j], events, j, m', c) ==> m == m')
    && (TakenBefore(g, run, events, j, c) ==>
          AskedBefore(events, j, c) && forall m :: !OnItsWay(run[j], events, j, m, c))
  }

  /** No leader takes on a context after one of any term did. */
  ghost predicate OnceTaken(g: Group, run: seq<State>, events: seq<Event>, j: nat, c: Ctx)
    requires j <= |events| < |run|
  {
    forall p: nat, q: nat :: p < q < j && TakesFor(g, run[p], events[p], c) ==> !TakesFor(g, run[q], events[q], c)
  }

  lemma {:induction false} RunToken(g: Group, run: seq<State>, events: seq<Event>, j: nat, c: Ctx)
    requires IsRun(g, run, events) && j < |run|
    requires AskedOnce(events) && DeliveredOnce(events)
    ensures OneToken(g, run, events, j, c) && OnceTaken(g, run, events, j, c)
    decreases j
  {
    if j == 0 {
      assert Init(g, run[0]);
    } else {
      RunToken(g, run, events, j - 1, c);
      hide IsRun, AskedOnce, DeliveredOnce, OneToken, OnceTaken;
      NextPassesIn(g, run, events, j - 1, c);
      TokenStep(g, run, events, j - 1, c);
      TakenStep(g, run, events, j - 1, c);
    }
  }

  lemma NextPassesIn(g: Group, run: seq<State>, events: seq<Event>, k: nat, c: Ctx)
    requires IsRun(g, run, events) && k < |events|
    ensures Passes(g, run[k], events[k], run[k + 1], c)
  {
    hide Next, Passes, Init;
    assert Next(g, run[k], events[k], run[k + 1]);
    NextPasses(g, run[k], events[k], run[k + 1], c);
  }

  lemma TakenStep(g: Group, run: seq<State>, events: seq<Event>, k: nat, c: Ctx)
    requires k < |events| < |run| && OnceTaken(g, run, events, k, c)
    requires Passes(g, run[k], events[k], run[k + 1], c)
    requires Carries(events[k], c) ==> !TakenBefore(g, run, events, k, c)
    ensures OnceTaken(g, run, events, k + 1, c)
  {
    hide TakesFor, Carries;
  }

  /** A step about a read finds no other message on its way with it, and no leader that took it on. */
  lemma CarriedAlone(g: Group, run: seq<State>, events: seq<Event>, k: nat, c: Ctx)
    requires k < |events| < |run| && OneToken(g, run, events, k, c)
    requires Passes(g, run[k], events[k], run[k + 1], c) && Carries(events[k], c)
    requires AskedOnce(events) && DeliveredOnce(events)
    ensures !TakenBefore(g, run, events, k, c)
    ensures forall m :: OnItsWay(run[k], events, k, m, c) ==> Delivers(events[k], m)
  {
    hide TakenBefore;
    var e := events[k];
    if e.Deliver? {
      assert OnItsWay(run[k], events, k, e.m, c);
    } else {
      assert !AskedBefore(events, k, c);
    }
  }

  lemma DeliveredStep(events: seq<Event>, k: nat, m: Msg)
    requires k < |events|
    ensures Delivered(events, k + 1, m) <==> Delivered(events, k, m) || Delivers(events[k], m)
  {
    assert k < k + 1;
  }

  lemma AskedStep(events: seq<Event>, k: nat, c: Ctx)
    requires k < |events|
    ensures AskedBefore(events, k + 1, c) <==> AskedBefore(events, k, c) || AsksFor(events[k], c)
  {
    assert k < k + 1;
  }

  lemma TakenBeforeStep(g: Group, run: seq<State>, events: seq<Event>, k: nat, c: Ctx)
    requires k < |events| < |run|
    ensures TakenBefore(g, run, events, k + 1, c) <==> TakenBefore(g, run, events, k, c) || TakesFor(g, run[k], events[k], c)
  {
    hide TakesFor;
    assert k < k + 1;
  }

  lemma OnItsWayStep(g: Group, run: seq<State>, events: seq<Event>, k: nat, m: Msg, c: Ctx)
    requires k < |events| < |run| && Passes(g, run[k], events[k], run[k + 1], c)
    requires OnItsWay(run[k + 1], events, k + 1, m, c)
    ensures OnItsWay(run[k], events, k, m, c) || (m in run[k + 1].sent - run[k].sent && Carries(events[k], c) && !TakesFor(g, run[k], events[k], c))
    ensures !Delivers(events[k], m)
  {
    hide TakesFor, Carries;
    DeliveredStep(events, k, m);
  }

  lemma TokenStep(g: Group, run: seq<State>, events: seq<Event>, k: nat, c: Ctx)
    requires k < |events| < |run| && OneToken(g, run, events, k, c)
    requires Passes(g, run[k], events[k], run[k + 1], c)
    requires AskedOnce(events) && DeliveredOnce(events)
    ensures OneToken(g, run, events, k + 1, c)
    ensures Carries(events[k], c) ==> !TakenBefore(g, run, events, k, c)
  {
    if Carries(events[k], c) {
      CarriedAlone(g, run, events, k, c);
    }
    AskedStep(events, k, c);
    TakenBeforeStep(g, run, events, k, c);
    hide TakesFor, AskedOnce, DeliveredOnce, AskedBefore, TakenBefore;
    var s', k' := run[k + 1], k + 1;
    forall m | OnItsWay(s', events, k', m, c)
      ensures (OnItsWay(run[k], events, k, m, c) && !Carries(events[k], c)) ||
              (m in s'.sent - run[k].sent && ReadFor(m, c) && Carries(events[k], c) && !TakesFor(g, run[k], events[k], c))
    {
      OnItsWayStep(g, run, events, k, m, c);
    }
    hide OnItsWay;
    forall m, m' | OnItsWay(s', events, k', m, c) && OnItsWay(s', events, k', m', c)
      ensures m == m'
    {
      if Carries(events[k], c) {
        assert m in s'.sent - run[k].sent && m' in s'.sent - run[k].sent;
      } else {
        assert OnItsWay(run[k], events, k, m, c) && OnItsWay(run[k], events, k, m', c);
      }
    }
  }

  lemma TakenWasAsked(g: Group, run: seq<State>, events: seq<Event>, p: nat, c: Ctx, t: nat)
    requires p < |events| < |run| && OneToken(g, run, events, p + 1, c) && TakesOn(g, run[p], events[p], c, t)
    ensures AskedBefore(events, p + 1, c)
  {
    assert TakesFor(g, run[p], events[p], c);
    hide TakesFor;
    assert p < p + 1;
  }

  lemma CoversEarlier(g: Group, run: seq<State>, events: seq<Event>, i: nat, p: nat, index: nat)
    requires GroupOk(g) && IsRun(g, run, events) && i <= p < |run| && CoversAll(run[p], index)
    ensures CoversAll(run[i], index)
  {
    hide IsRun;
    forall v | v in run[i].nodes
      ensures run[i].nodes[v].committed <= index
    {
      CommittedIsForever(g, run, events, i, p, v);
    }
  }

  /** So no leader takes on a context twice. */
  lemma NoneTwice(g: Group, run: seq<State>, events: seq<Event>, j: nat)
    requires IsRun(g, run, events) && j < |run| && AskedOnce(events) && DeliveredOnce(events)
    ensures forall c, t: nat :: !TakenTwice(g, run, events, j, c, t)
  {
    forall c, t: nat
      ensures !TakenTwice(g, run, events, j, c, t)
    {
      RunToken(g, run, events, j, c);
      hide IsRun, AskedOnce, DeliveredOnce, OneToken, OnceTaken, TakenTwice;
      NotTwice(g, run, events, j, c, t);
    }
  }

  /** If clients use each context for one request and no forwarded read is delivered again, every answered
      read was asked for, and its index covers everything committed anywhere when it was. */
  lemma ClientReadsLinearizable(g: Group, run: seq<State>, events: seq<Event>, j: nat, x: Id, r: ReadState) returns (i: nat)
    requires GroupOk(g) && IsRun(g, run, events)
    requires j < |run| && x in run[j].nodes && r in run[j].nodes[x].readStates
    requires AskedOnce(events) && DeliveredOnce(events)
    ensures i < j && AsksFor(events[i], r.ctx) && CoversAll(run[i], r.index)
  {
    NoneTwice(g, run, events, j);
    var t, p, d, q := ReadAnswers(g, run, events, j, x, r);
    i := AskOf(g, run, events, p, r.ctx, t);
    hide IsRun, AskedOnce, DeliveredOnce, CoversAll, TakesOn, TakenTwice, FirstTaken;
    CoversEarlier(g, run, events, i, p, r.index);
  }

  /** Every read that is taken on was asked for. */
  lemma AskOf(g: Group, run: seq<State>, events: seq<Event>, p: nat, c: Ctx, t: nat) returns (i: nat)
    requires IsRun(g, run, events) && AskedOnce(events) && DeliveredOnce(events)
    requires p < |events| && TakesOn(g, run[p], events[p], c, t)
    ensures i <= p && AsksFor(events[i], c)
  {
    hide AskedOnce, DeliveredOnce, OneToken, OnceTaken, TakesOn;
    RunToken(g, run, events, p + 1, c);
    hide IsRun;
    TakenWasAsked(g, run, events, p, c, t);
    i :| i < p + 1 && AsksFor(events[i], c);
  }

  lemma NotTwice(g: Group, run: seq<State>, events: seq<Event>, j: nat, c: Ctx, t: nat)
    requires j <= |events| < |run| && OnceTaken(g, run, events, j, c)
    ensures !TakenTwice(g, run, events, j, c, t)
  {
    if TakenTwice(g, run, events, j, c, t) {
      var p: nat, q: nat :| p < q < j && TakesOn(g, run[p], events[p], c, t) && TakesOn(g, run[q], events[q], c, t);
      assert TakesFor(g, run[p], events[p], c);
      assert false;
    }
  }
}
