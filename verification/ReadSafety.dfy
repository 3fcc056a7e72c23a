/** Which commits an answered read is sure to cover, over every run of the cluster. */
module ReadSafety {
  import opened Types
  import opened Quorum
  import opened ReadQueue
  import opened RaftNode
  import opened History
  import opened Growth
  import opened Invariant
  import opened StepHandled
  import opened Cluster

  /** The read, and its term, that a leader takes on when it gets the message: it queues the read, or
      answers it at once if it is the only voter. */
  function TakenWith(g: Group, s: State, m: Msg): Option<(Ctx, nat)> {
    if m.to in s.nodes && TakesRead(g, s.nodes[m.to], m) then Some((m.ctx, s.nodes[m.to].term)) else None
  }

  function Taken(g: Group, s: State, e: Event): Option<(Ctx, nat)> {
    match e
    case Deliver(m, _) => TakenWith(g, s, m)
    case AskRead(id, ctx) => TakenWith(g, s, ReadIndex(NONE, id, ctx))
    case _ => None
  }

  predicate TakesOn(g: Group, s: State, e: Event, c: Ctx, t: nat) {
    Taken(g, s, e) == Some((c, t))
  }

  /** Before step `j` the leader of term `t` takes on the context `c` again, after it had answered it. */
  ghost predicate TakenTwice(g: Group, run: seq<State>, events: seq<Event>, j: nat, c: Ctx, t: nat)
    requires j <= |events| < |run|
  {
    exists p: nat, q: nat :: p < q < j && TakesOn(g, run[p], events[p], c, t) && TakesOn(g, run[q], events[q], c, t)
  }

  /** The index is at least what every node of the cluster has committed. */
  ghost predicate CoversAll(s: State, index: nat) {
    forall v :: v in s.nodes ==> s.nodes[v].committed <= index
  }

  /** Step `p` is the first at which the leader of term `t` takes on `c`. */
  ghost predicate FirstTaken(g: Group, run: seq<State>, events: seq<Event>, p: nat, c: Ctx, t: nat)
    requires |events| < |run|
  {
    p < |events| && TakesOn(g, run[p], events[p], c, t) && forall q: nat :: q < p ==> !TakesOn(g, run[q], events[q], c, t)
  }

  ghost predicate ObservedFirst(g: Group, run: seq<State>, events: seq<Event>, j: nat, c: Ctx, t: nat, p: nat)
    requires j <= |events| < |run|
  {
    p < j && FirstTaken(g, run, events, p, c, t) && (c, t) in run[j].observed && run[j].observed[(c, t)] == Commits(run[p])
  }

  // ----- what the cluster observes

  /** A context is observed exactly if it was taken on, with the commits of the first time; a term is
      noted only if some other than the empty context was taken on again in it. */
  ghost predicate ObservesTaking(g: Group, run: seq<State>, events: seq<Event>, j: nat)
    requires j <= |events| < |run|
  {
    && (forall c, t: nat :: (c, t) in run[j].observed ==>
          exists p: nat :: ObservedFirst(g, run, events, j, c, t, p))
    && (forall c, t: nat, p: nat :: p < j && TakesOn(g, run[p], events[p], c, t) ==> (c, t) in run[j].observed)
    && (forall t: nat :: t in run[j].reused ==> !IsSingleton(g.cfg) && exists c :: c != [] && TakenTwice(g, run, events, j, c, t))
  }

  /** What a step observes if it takes on the read `k`. */
  ghost predicate Observes(g: Group, s: State, k: Option<(Ctx, nat)>, s': State) {
    if k.None? then s'.observed == s.observed && s'.reused == s.reused
    else
      && s'.observed == (if k.value in s.observed then s.observed else s.observed[k.value := Commits(s)])
      && s'.reused == (if Retaken(g, s.observed.Keys, k.value.0, k.value.1) then s.reused + {k.value.1} else s.reused)
  }

  lemma NextObserves(g: Group, s: State, e: Event, s': State)
    requires Next(g, s, e, s')
    ensures Observes(g, s, Taken(g, s, e), s')
  {
    hide Step, LeaderMay, Hup, Acknowledge, TakesRead, MciOk;
    match e
    case Deliver(m, mci) => HandlesObserves(g, s, m, mci, s');
    case AskRead(id, ctx) => HandlesObserves(g, s, ReadIndex(NONE, id, ctx), 0, s');
    case _ =>
  }

  lemma HandlesObserves(g: Group, s: State, m: Msg, mci: nat, s': State)
    requires Handles(g, s, m, mci, s')
    ensures Observes(g, s, TakenWith(g, s, m), s')
  {
    hide Step, MciOk;
  }

  lemma {:induction false} RunObserves(g: Group, run: seq<State>, events: seq<Event>, j: nat)
    requires IsRun(g, run, events) && j < |run|
    ensures ObservesTaking(g, run, events, j)
    decreases j
  {
    if j == 0 {
      assert Init(g, run[0]);
    } else {
      hide Next, Taken, Commits, Observes;
      RunObserves(g, run, events, j - 1);
      assert Next(g, run[j - 1], events[j - 1], run[j]);
      NextObserves(g, run[j - 1], events[j - 1], run[j]);
      match Taken(g, run[j - 1], events[j - 1])
      case None => NothingTaken(g, run, events, j);
      case Some(k) => TakingObserved(g, run, events, j, k.0, k.1);
    }
  }

  lemma NothingTaken(g: Group, run: seq<State>, events: seq<Event>, j: nat)
    requires 0 < j <= |events| < |run| && ObservesTaking(g, run, events, j - 1)
    requires Taken(g, run[j - 1], events[j - 1]) == None && Observes(g, run[j - 1], None, run[j])
    ensures ObservesTaking(g, run, events, j)
  {
    hide Taken, Commits, FirstTaken;
    forall t: nat | t in run[j].reused
      ensures exists c :: c != [] && TakenTwice(g, run, events, j, c, t)
    {
      var c :| c != [] && TakenTwice(g, run, events, j - 1, c, t);
      TwiceStays(g, run, events, j, c, t);
    }
    forall c, t | (c, t) in run[j].observed
      ensures exists p: nat :: ObservedFirst(g, run, events, j, c, t, p)
    {
      var p: nat :| ObservedFirst(g, run, events, j - 1, c, t, p);
      assert ObservedFirst(g, run, events, j, c, t, p);
    }
  }

  lemma TwiceStays(g: Group, run: seq<State>, events: seq<Event>, j: nat, c: Ctx, t: nat)
    requires 0 < j <= |events| < |run| && TakenTwice(g, run, events, j - 1, c, t)
    ensures TakenTwice(g, run, events, j, c, t)
  {
    hide Taken;
    var p: nat, q: nat :| p < q < j - 1 && TakesOn(g, run[p], events[p], c, t) && TakesOn(g, run[q], events[q], c, t);
    assert p < q < j;
  }

  lemma TakingObserved(g: Group, run: seq<State>, events: seq<Event>, j: nat, c: Ctx, t: nat)
    requires 0 < j <= |events| < |run| && ObservesTaking(g, run, events, j - 1)
    requires TakesOn(g, run[j - 1], events[j - 1], c, t)
    requires Observes(g, run[j - 1], Some((c, t)), run[j])
    ensures ObservesTaking(g, run, events, j)
  {
    hide Commits;
    ObservedTaking(g, run, events, j, c, t);
    forall d, u: nat, p: nat | p < j && TakesOn(g, run[p], events[p], d, u)
      ensures (d, u) in run[j].observed
    {
      if p < j - 1 {
        assert (d, u) in run[j - 1].observed;
      }
    }
    hide Taken, FirstTaken;
    forall u: nat | u in run[j].reused
      ensures !IsSingleton(g.cfg) && exists d :: d != [] && TakenTwice(g, run, events, j, d, u)
    {
      if u in run[j - 1].reused {
        var d :| d != [] && TakenTwice(g, run, events, j - 1, d, u);
        TwiceStays(g, run, events, j, d, u);
      } else {
        RetakenTwice(g, run, events, j, c, t);
      }
    }
  }

  lemma RetakenTwice(g: Group, run: seq<State>, events: seq<Event>, j: nat, c: Ctx, t: nat)
    requires 0 < j <= |events| < |run| && ObservesTaking(g, run, events, j - 1)
    requires TakesOn(g, run[j - 1], events[j - 1], c, t) && (c, t) in run[j - 1].observed
    ensures TakenTwice(g, run, events, j, c, t)
  {
    var p: nat :| ObservedFirst(g, run, events, j - 1, c, t, p);
    hide Taken;
    assert p < j - 1 < j && TakesOn(g, run[p], events[p], c, t);
  }

  lemma ObservedTaking(g: Group, run: seq<State>, events: seq<Event>, j: nat, c: Ctx, t: nat)
    requires 0 < j <= |events| < |run| && ObservesTaking(g, run, events, j - 1)
    requires TakesOn(g, run[j - 1], events[j - 1], c, t)
    requires Observes(g, run[j - 1], Some((c, t)), run[j])
    ensures forall d, u: nat :: (d, u) in run[j].observed ==>
              exists p: nat :: ObservedFirst(g, run, events, j, d, u, p)
  {
    hide Commits, Taken;
    forall d, u: nat | (d, u) in run[j].observed
      ensures exists p: nat :: ObservedFirst(g, run, events, j, d, u, p)
    {
      if (d, u) in run[j - 1].observed {
        var p: nat :| ObservedFirst(g, run, events, j - 1, d, u, p);
        assert ObservedFirst(g, run, events, j, d, u, p);
      } else {
        assert FirstTaken(g, run, events, j - 1, d, u);
        assert ObservedFirst(g, run, events, j, d, u, j - 1);
      }
    }
  }

  // ----- what an answer covers

  lemma AnswerObserved(g: Group, h: Hist, s: State, id: Id, r: ReadState) returns (d: Ctx, t: nat)
    requires Inv(g, h, s) && id in s.nodes && r in s.nodes[id].readStates
    ensures (r.ctx, t) in s.observed && (d, t) in s.observed
    ensures Meets(s.observed[(d, t)], r.index)
    ensures t !in s.reused ==> Meets(s.observed[(r.ctx, t)], r.index)
  {
    hide HistOk, MsgOk, LogOk, Remembers, Certified;
    assert NodeOk(g, h, s.nodes[id]);
    assert AnswerOk(h, r.ctx, r.index);
    d, t :| AnsweredBy(h, r.ctx, r.index, d, t);
  }

  lemma MeetsCovers(s: State, index: nat)
    requires Meets(Commits(s), index)
    ensures CoversAll(s, index)
  {
    forall v | v in s.nodes ensures s.nodes[v].committed <= index {
      assert Commits(s)[v] <= index;
    }
  }

  /** In every run an answered read was taken on by the leader of some term, and its index covers
      everything committed when that leader first took on the read `d` whose confirmation released it.
      If that leader took on no context again, it covers what was committed when its own was taken on. */
  lemma ReadAnswers(g: Group, run: seq<State>, events: seq<Event>, j: nat, x: Id, r: ReadState)
      returns (t: nat, p: nat, d: Ctx, q: nat)
    requires GroupOk(g) && IsRun(g, run, events)
    requires j < |run| && x in run[j].nodes && r in run[j].nodes[x].readStates
    ensures p < j && FirstTaken(g, run, events, p, r.ctx, t)
    ensures q < j && FirstTaken(g, run, events, q, d, t) && CoversAll(run[q], r.index)
    ensures IsSingleton(g.cfg) || (forall c :: c != [] ==> !TakenTwice(g, run, events, j, c, t)) ==> CoversAll(run[p], r.index)
  {
    hide Inv, Next, Taken, TakenTwice, Commits, CoversAll, Grows;
    var hs := RunExplained(g, run, events);
    d, t := AnswerObserved(g, hs[j], run[j], x, r);
    RunObserves(g, run, events, j);
    p :| ObservedFirst(g, run, events, j, r.ctx, t, p);
    q :| ObservedFirst(g, run, events, j, d, t, q);
    MeetsCovers(run[q], r.index);
    if t !in run[j].reused {
      MeetsCovers(run[p], r.index);
    }
  }

  /** Some leader took on the read of the answer when everything then committed is covered by it. */
  ghost predicate Covered(g: Group, run: seq<State>, events: seq<Event>, j: nat, r: ReadState)
    requires j <= |events| < |run|
  {
    exists p: nat, t: nat :: p < j && FirstTaken(g, run, events, p, r.ctx, t) && CoversAll(run[p], r.index)
  }

  /** Reads are linearizable in every run in which no leader takes on a context twice in its term. */
  lemma ReadIndexLinearizable(g: Group, run: seq<State>, events: seq<Event>, j: nat, x: Id, r: ReadState)
    requires GroupOk(g) && IsRun(g, run, events)
    requires j < |run| && x in run[j].nodes && r in run[j].nodes[x].readStates
    requires forall c, t: nat :: c != [] ==> !TakenTwice(g, run, events, j, c, t)
    ensures Covered(g, run, events, j, r)
  {
    hide IsRun, FirstTaken, TakenTwice, CoversAll;
    var t, p, d, q := ReadAnswers(g, run, events, j, x, r);
  }
}
