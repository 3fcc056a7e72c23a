/** The runs the theorems speak about exist: a single voter elects itself, commits and answers a read, a
    pre-vote request makes a node fail, and pipelines can start. */
module Examples {
  import opened Types
  import opened Quorum
  import opened ReadQueue
  import opened RaftNode
  import opened Cluster
  import opened StepHandled
  import opened Traces
  import L = LogModel
  import P = PipelineRuns
  import Q = Pipeline

  const ALONE: Group := Group(JointConfig({1}, {}), {1}, false, false)

  const CONTEXT: Ctx := [7]

  function Leading(committed: nat, persisted: nat, answers: seq<ReadState>): Node {
    Node(1, 1, 1, Leader, 1, [EmptyEntry(1, 1)], committed, persisted, map[], map[1 := persisted], NoReads, answers, 0)
  }

  function At(n: Node, observed: map<(Ctx, nat), map<Id, nat>>): State {
    State(map[1 := n], {}, {}, observed, {})
  }

  const EVENTS: seq<Event> := [Timeout(1, false), Persist(1, 1, 1), AskRead(1, CONTEXT)]

  const STATES: seq<State> :=
    [At(FreshNode(1, {1}, 0), map[]), At(Leading(0, 0, []), map[]), At(Leading(1, 1, []), map[]),
     At(Leading(1, 1, [ReadState(1, CONTEXT)]), map[(CONTEXT, 1) := map[1 := 1]])]

  lemma AloneIsQuorum(s: set<Id>)
    requires 1 in s
    ensures IsQuorum(ALONE.cfg, s)
  {
    assert {1} * s == {1};
  }

  lemma Elected()
    ensures Next(ALONE, STATES[0], EVENTS[0], STATES[1])
  {
    var n := FreshNode(1, {1}, 0);
    var c := WithVote(RaftNode.BecomeCandidate(n), 1, true);
    assert c.votes == map[1 := true];
    AloneIsQuorum({1});
    assert Yes(Voters(ALONE.cfg), c.votes) == {1};
    WonIsQuorum(ALONE.cfg, c.votes);
    hide JointVote;
    assert Campaign(ALONE, n) == RaftNode.BecomeLeader(c);
    assert (map p | p in c.matched :: if p == 1 then 0 else 0) == map[1 := 0];
    assert Campaign(ALONE, n) == Ok(Leading(0, 0, []), {});
    assert map[1 := n][1 := Leading(0, 0, [])] == map[1 := Leading(0, 0, [])];
  }

  lemma Committed()
    ensures Next(ALONE, STATES[1], EVENTS[1], STATES[2])
  {
    var n := Leading(0, 0, []);
    AloneIsQuorum(Acked(Acknowledge(n, 1, 1).matched, 1));
    assert map[1 := 0][1 := 1] == map[1 := 1];
    assert PersistTo(n, 1, 1) == Leading(1, 1, []);
    assert map[1 := n][1 := Leading(1, 1, [])] == map[1 := Leading(1, 1, [])];
  }

  lemma Answered()
    ensures Next(ALONE, STATES[2], EVENTS[2], STATES[3])
  {
    var n, m := Leading(1, 1, []), ReadIndex(NONE, 1, CONTEXT);
    assert Step(ALONE, n, m, 0) == Ok(Leading(1, 1, [ReadState(1, CONTEXT)]), {});
    assert Commits(STATES[2]) == map[1 := 1];
    assert map[1 := n][1 := Leading(1, 1, [ReadState(1, CONTEXT)])] == map[1 := Leading(1, 1, [ReadState(1, CONTEXT)])];
  }

  /** A single voter becomes leader, commits its first entry and answers a read with its index. */
  lemma SingleVoterRun()
    ensures GroupOk(ALONE) && IsRun(ALONE, STATES, EVENTS)
    ensures STATES[3].nodes[1].role == Leader && STATES[3].nodes[1].committed == 1
    ensures STATES[3].nodes[1].readStates == [ReadState(1, CONTEXT)]
  {
    Elected();
    Committed();
    Answered();
    hide Next;
  }

  // ----- a refused pre-vote request

  const PAIR: Group := Group(JointConfig({1, 2}, {}), {1, 2}, true, false)

  const PRE_VOTE: Msg := RequestVote(1, 2, 1, true, 0, 0, 0, 0, 0)

  function Starting(id: Id, priority: int): Node {
    FreshNode(id, {1, 2}, priority)
  }

  lemma PreCampaigns()
    ensures var r := Hup(PAIR, Starting(1, 0), true);
            r.Ok? && PRE_VOTE in r.out && PRE_VOTE.from == 1
  {
    var n := Starting(1, 0);
    var c := WithVote(RaftNode.BecomePreCandidate(n), 1, true);
    assert c.votes == map[1 := true];
    var all: set<Id> := {1, 2};
    assert |all| == 2 && Yes(all, c.votes) == {1} && Missing(all, c.votes) == {2};
    assert JointVote(PAIR.cfg, c.votes) == Pending;
    hide JointVote;
    assert VoteRequest(c, 2, true, 1) in VoteRequests(PAIR, c, true, 1);
  }

  lemma Refuses()
    ensures Step(PAIR, Starting(2, 1), PRE_VOTE, 0).Panic?
  {
  }

  /** Two voters start with pre-vote and different priorities. The one with the lower priority asks first,
      and its request makes the other fail. */
  lemma RefusedRun() returns (run: seq<State>, events: seq<Event>)
    ensures GroupOk(PAIR) && IsRun(PAIR, run, events) && run != []
    ensures var s := run[|run| - 1];
            PRE_VOTE in s.live && 2 in s.nodes && Step(PAIR, s.nodes[2], PRE_VOTE, 0).Panic?
  {
    hide TraceOk, Hup, Step;
    var ns := map[1 := Starting(1, 0), 2 := Starting(2, 1)];
    assert ns.Keys == {1, 2};
    var tr := Start(PAIR, ns);
    PreCampaigns();
    tr := TimesOut(PAIR, tr, 1, true, Hup(PAIR, Starting(1, 0), true), {PRE_VOTE}, ns, {});
    Refuses();
    RunOfTrace(tr);
    run, events := tr.run, tr.events;
  }

  lemma RunOfTrace(tr: Trace)
    requires TraceOk(PAIR, tr)
    ensures IsRun(PAIR, tr.run, tr.events)
  {
  }

  // ----- pipelines

  /** A node that starts from the given store and is configured with the applied index `since`. */
  function Started(store: L.Store, since: nat, commit: nat): P.Sys
    requires L.StoreOk(store)
  {
    var applied := Max(since, store.base);
    P.Sys(Q.Raw(L.LogState(store, L.Unstable(None, [], 0, store.base + |store.entries| + 1), commit,
                           store.base + |store.entries|, applied),
                0, NONE, false, 0, 0, 0, false, Q.Hard(0, NONE, commit), 0, [], since),
          None, false, [], applied)
  }

  /** A pipeline starts from any store, with the applied index left at zero or set to one that the store
      shows to be committed and persisted. */
  lemma PipelineStarts(store: L.Store, since: nat, commit: nat)
    requires L.StoreOk(store)
    requires store.base <= commit <= store.base + |store.entries|
    requires since == 0 || store.base <= since <= commit
    ensures P.Init(Started(store, since, commit))
  {
    assert store.entries[..|store.entries|] + [] == store.entries;
  }
}
