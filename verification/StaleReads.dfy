/** A run in which a leader takes on a context twice in its term, and a read that was asked once is
    answered with less than what was committed when it was asked. */
module StaleReads {
  import opened Types
  import opened Quorum
  import opened ReadQueue
  import opened RaftNode
  import opened StepHandled
  import opened Cluster
  import opened ReadSafety
  import opened Traces

  const THREE: Group := Group(JointConfig({1, 2, 3}, {}), {1, 2, 3}, false, false)

  const ZEROS: map<Id, nat> := map[1 := 0, 2 := 0, 3 := 0]

  const E1: Entry := EmptyEntry(1, 1)

  const E2: Entry := EmptyEntry(2, 2)

  function Nodes(a: Node, b: Node, c: Node): map<Id, Node> {
    map[1 := a, 2 := b, 3 := c]
  }

  function Fresh(id: Id): Node {
    FreshNode(id, {1, 2, 3}, 0)
  }

  function Following(id: Id, term: nat, vote: Id, leader: Id, log: seq<Entry>, committed: nat, persisted: nat): Node {
    Node(id, term, vote, Follower, leader, log, committed, persisted, map[], ZEROS, NoReads, [], 0)
  }

  /** Node 1 leading term 1 with its first entry. */
  function Old(committed: nat, persisted: nat, matched: map<Id, nat>, waiting: Reads, answers: seq<ReadState>): Node {
    Node(1, 1, 1, Leader, 1, [E1], committed, persisted, map[], matched, waiting, answers, 0)
  }

  /** Node 2 leading term 2. */
  function New(committed: nat, persisted: nat, matched: map<Id, nat>): Node {
    Node(2, 2, 2, Leader, 2, [E1, E2], committed, persisted, map[], matched, NoReads, [], 0)
  }

  // ----- votes

  lemma TwoDecide(a: Id, b: Id)
    requires a in {1, 2, 3} && b in {1, 2, 3} && a != b
    ensures JointVote(THREE.cfg, map[a := true, b := true]) == Won
    ensures JointVote(THREE.cfg, map[a := true]) == Pending
    ensures IsQuorum(THREE.cfg, {a, b})
  {
    var all: set<Id> := {1, 2, 3};
    assert |all| == 3;
    assert Yes(all, map[a := true, b := true]) == {a, b} && Yes(all, map[a := true]) == {a};
    var c := 6 - a - b;
    assert Missing(all, map[a := true]) == {b, c};
    assert all * {a, b} == {a, b};
  }

  lemma FreshIs(id: Id)
    ensures Fresh(id) == Following(id, 0, NONE, NONE, [], 0, 0)
  {
    assert Fresh(id).matched == ZEROS;
  }

  // ----- node 1 leads term 1

  lemma FirstCampaign()
    ensures var n := Following(1, 0, NONE, NONE, [], 0, 0);
            var r := Hup(THREE, n, false);
            && r.Ok? && r.node == n.(term := 1, vote := 1, role := Candidate, votes := map[1 := true])
            && RequestVote(1, 2, 1, false, 0, 0, 0, 0, 0) in r.out
  {
    TwoDecide(1, 2);
    hide JointVote;
    var n := Following(1, 0, NONE, NONE, [], 0, 0);
    var c := WithVote(BecomeCandidate(n), 1, true);
    assert c.matched == ZEROS;
    assert c.votes == map[1 := true];
    assert VoteRequest(c, 2, false, 1) in VoteRequests(THREE, c, false, 1);
  }

  lemma FirstVote()
    ensures Step(THREE, Following(2, 0, NONE, NONE, [], 0, 0), RequestVote(1, 2, 1, false, 0, 0, 0, 0, 0), 0) ==
            Ok(Following(2, 1, 1, NONE, [], 0, 0), {VoteResp(2, 1, 1, false, false, 0, 0)})
  {
    var n := Following(2, 0, NONE, NONE, [], 0, 0);
    assert BecomeFollower(n, 1, NONE).matched == ZEROS;
  }

  lemma FirstElected()
    ensures var n := Following(1, 0, NONE, NONE, [], 0, 0).(term := 1, vote := 1, role := Candidate, votes := map[1 := true]);
            Step(THREE, n, VoteResp(2, 1, 1, false, false, 0, 0), 0) == Ok(Old(0, 0, ZEROS, NoReads, []), {})
  {
    TwoDecide(1, 2);
    hide JointVote;
    var n := Following(1, 0, NONE, NONE, [], 0, 0).(term := 1, vote := 1, role := Candidate, votes := map[1 := true]);
    var c := WithVote(n, 2, true);
    assert c.votes == map[1 := true, 2 := true];
    assert Reset(c, 1).matched == ZEROS;
  }

  const FIRST_APPEND: Msg := Append(1, 2, 1, 0, 0, [E1], 0)

  lemma FirstAppend()
    ensures LeaderMay(THREE, Old(0, 0, ZEROS, NoReads, []), FIRST_APPEND)
    ensures WellFormed(FIRST_APPEND)
    ensures Step(THREE, Following(2, 1, 1, NONE, [], 0, 0), FIRST_APPEND, 0) ==
            Ok(Following(2, 1, 1, 1, [E1], 0, 0), {AppendResp(2, 1, 1, 1, false, 0, 0, 0)})
  {
    assert [E1][0..] == [E1] && [][..0] + [E1][0..] == [E1];
  }

  lemma FirstPersisted()
    ensures PersistTo(Old(0, 0, ZEROS, NoReads, []), 1, 0) == Old(0, 1, ZEROS[1 := 1], NoReads, [])
  {
  }

  lemma FirstCommit()
    ensures var n, m := Old(0, 1, ZEROS[1 := 1], NoReads, []), AppendResp(2, 1, 1, 1, false, 0, 0, 0);
            && MciOk(THREE, n, m, 1)
            && Step(THREE, n, m, 1) == Ok(Old(1, 1, ZEROS[1 := 1][2 := 1], NoReads, []), {})
  {
    TwoDecide(1, 2);
    assert Acked(ZEROS[1 := 1][2 := 1], 1) == {1, 2};
  }

  // ----- the first read, confirmed by node 2

  function Both(): map<Id, nat> {
    ZEROS[1 := 1][2 := 1]
  }

  function Asked(c: Ctx, from: Id, acks: set<Id>): Reads {
    Reads(map[c := ReadStatus(from, 1, acks)], [c])
  }

  lemma FirstForward(c: Ctx)
    ensures Step(THREE, Following(2, 1, 1, 1, [E1], 0, 0), ReadIndex(NONE, 2, c), 0) ==
            Ok(Following(2, 1, 1, 1, [E1], 0, 0), {ReadIndex(2, 1, c)})
  {
  }

  lemma FirstTakenOn(c: Ctx)
    ensures var n, m := Old(1, 1, Both(), NoReads, []), ReadIndex(2, 1, c);
            TakesRead(THREE, n, m) && Step(THREE, n, m, 0) == Ok(Old(1, 1, Both(), Asked(c, 2, {1}), []), {})
  {
    ThreeVoters();
  }

  lemma ThreeVoters()
    ensures !IsSingleton(THREE.cfg)
  {
    assert |THREE.cfg.incoming| == 3;
  }

  lemma Beat(c: Ctx)
    ensures LeaderMay(THREE, Old(1, 1, Both(), Asked(c, 2, {1}), []), Heartbeat(1, 2, 1, 1, c))
    ensures Step(THREE, Following(2, 1, 1, 1, [E1], 0, 0), Heartbeat(1, 2, 1, 1, c), 0) ==
            Ok(Following(2, 1, 1, 1, [E1], 1, 0), {HeartbeatResp(2, 1, 1, 1, c)})
  {
  }

  lemma FirstReleased(c: Ctx)
    requires c != []
    ensures Step(THREE, Old(1, 1, Both(), Asked(c, 2, {1}), []), HeartbeatResp(2, 1, 1, 1, c), 0) ==
            Ok(Old(1, 1, Both(), NoReads, []), {ReadIndexResp(1, 2, 1, 1, c)})
  {
    TwoDecide(1, 2);
    hide JointVote;
    var w := RecvAck(Asked(c, 2, {1}), 2, c);
    assert {1} + {2} == {1, 2};
    assert w.pending == map[c := ReadStatus(2, 1, {1, 2})];
    assert w == Asked(c, 2, {1, 2});
    assert YesFrom({1, 2}) == map[1 := true, 2 := true];
    assert Position([c], c) == 0 && [c][..1] == [c] && [c][1..] == [];
    assert Released(w, c) == [c];
    assert Advance(w, c) == NoReads;
    var n := Old(1, 1, Both(), NoReads, []);
    assert RespondAll(n, [c], w.pending) == (n, {ReadIndexResp(1, 2, 1, 1, c)}) by {
      assert RespondAll(n, [c][1..], w.pending) == (n, {});
    }
  }

  // ----- node 2 leads term 2 and commits past it

  lemma SecondPersisted()
    ensures PersistTo(Following(2, 1, 1, 1, [E1], 1, 0), 1, 0) == Following(2, 1, 1, 1, [E1], 1, 1)
  {
  }

  const SECOND_REQUEST: Msg := RequestVote(2, 3, 2, false, 1, 1, 1, 1, 0)

  function Running(): Node {
    Following(2, 2, 2, NONE, [E1], 1, 1).(role := Candidate, votes := map[2 := true])
  }

  lemma SecondCampaign()
    ensures var r := Hup(THREE, Following(2, 1, 1, 1, [E1], 1, 1), false);
            r.Ok? && r.node == Running().(matched := ZEROS[2 := 1]) && SECOND_REQUEST in r.out
  {
    TwoDecide(2, 3);
    hide JointVote;
    var n := Following(2, 1, 1, 1, [E1], 1, 1);
    var c := WithVote(BecomeCandidate(n), 2, true);
    assert c.matched == ZEROS[2 := 1];
    assert c.votes == map[2 := true];
    assert VoteRequest(c, 3, false, 2) in VoteRequests(THREE, c, false, 2);
  }

  lemma SecondVote()
    ensures Step(THREE, Following(3, 0, NONE, NONE, [], 0, 0), SECOND_REQUEST, 0) ==
            Ok(Following(3, 2, 2, NONE, [], 0, 0), {VoteResp(3, 2, 2, false, false, 0, 0)})
  {
    var n := Following(3, 0, NONE, NONE, [], 0, 0);
    assert BecomeFollower(n, 2, NONE).matched == ZEROS;
  }

  lemma SecondElected()
    ensures Step(THREE, Running().(matched := ZEROS[2 := 1]), VoteResp(3, 2, 2, false, false, 0, 0), 0) ==
            Ok(New(1, 1, ZEROS[2 := 1]), {})
  {
    TwoDecide(2, 3);
    hide JointVote;
    var c := WithVote(Running().(matched := ZEROS[2 := 1]), 3, true);
    assert c.votes == map[2 := true, 3 := true];
    assert Reset(c, 2).matched == ZEROS[2 := 1];
  }

  const SECOND_APPEND: Msg := Append(2, 3, 2, 0, 0, [E1, E2], 1)

  lemma SecondAppend()
    ensures LeaderMay(THREE, New(1, 1, ZEROS[2 := 1]), SECOND_APPEND)
    ensures WellFormed(SECOND_APPEND)
    ensures Step(THREE, Following(3, 2, 2, NONE, [], 0, 0), SECOND_APPEND, 0) ==
            Ok(Following(3, 2, 2, 2, [E1, E2], 1, 0), {AppendResp(3, 2, 2, 2, false, 0, 0, 1)})
  {
    assert [E1, E2][0..] == [E1, E2] && [][..0] + [E1, E2][0..] == [E1, E2];
  }

  lemma SecondLogPersisted()
    ensures PersistTo(New(1, 1, ZEROS[2 := 1]), 2, 0) == New(1, 2, ZEROS[2 := 2])
  {
  }

  lemma SecondCommit()
    ensures var n, m := New(1, 2, ZEROS[2 := 2]), AppendResp(3, 2, 2, 2, false, 0, 0, 1);
            && MciOk(THREE, n, m, 2)
            && Step(THREE, n, m, 2) == Ok(New(2, 2, ZEROS[2 := 2][3 := 2]), {})
  {
    TwoDecide(2, 3);
    assert Acked(ZEROS[2 := 2][3 := 2], 2) == {2, 3};
  }

  // ----- the stale answer

  lemma AskedLate(d: Ctx)
    ensures var n, m := Old(1, 1, Both(), NoReads, []), ReadIndex(NONE, 1, d);
            TakesRead(THREE, n, m) && Step(THREE, n, m, 0) == Ok(Old(1, 1, Both(), Asked(d, NONE, {1}), []), {})
  {
    ThreeVoters();
  }

  function Queued(d: Ctx, c: Ctx, acks: set<Id>): Reads {
    Reads(map[d := ReadStatus(NONE, 1, {1}), c := ReadStatus(2, 1, acks)], [d, c])
  }

  lemma TakenAgain(c: Ctx, d: Ctx)
    requires c != d
    ensures var n, m := Old(1, 1, Both(), Asked(d, NONE, {1}), []), ReadIndex(2, 1, c);
            TakesRead(THREE, n, m) && Step(THREE, n, m, 0) == Ok(Old(1, 1, Both(), Queued(d, c, {1}), []), {})
  {
    ThreeVoters();
  }

  lemma BothAcked(c: Ctx, d: Ctx)
    requires c != d
    ensures RecvAck(Queued(d, c, {1}), 2, c) == Queued(d, c, {1, 2})
  {
    var w := RecvAck(Queued(d, c, {1}), 2, c);
    assert {1} + {2} == {1, 2};
    assert w.pending == map[d := ReadStatus(NONE, 1, {1}), c := ReadStatus(2, 1, {1, 2})];
  }

  lemma BothReleased(c: Ctx, d: Ctx)
    requires c != d
    ensures var w := Queued(d, c, {1, 2});
            CanAdvance(w, c) && Released(w, c) == [d, c] && Advance(w, c) == NoReads
  {
    assert [d, c][1..] == [c] && Position([c], c) == 0;
    assert Position([d, c], c) == 1 && [d, c][..2] == [d, c] && [d, c][2..] == [];
  }

  lemma BothAnswered(c: Ctx, d: Ctx)
    requires c != d
    ensures RespondAll(Old(1, 1, Both(), NoReads, []), [d, c], Queued(d, c, {1, 2}).pending) ==
            (Old(1, 1, Both(), NoReads, [ReadState(1, d)]), {ReadIndexResp(1, 2, 1, 1, c)})
  {
    var w := Queued(d, c, {1, 2});
    var n := Old(1, 1, Both(), NoReads, []);
    var n' := Old(1, 1, Both(), NoReads, [ReadState(1, d)]);
    assert [] + [ReadState(1, d)] == [ReadState(1, d)];
    assert Respond(n, NONE, d, 1) == (n', {});
    assert w.pending[c] == ReadStatus(2, 1, {1, 2}) && w.pending[d] == ReadStatus(NONE, 1, {1});
    assert Respond(n', 2, c, 1) == (n', {ReadIndexResp(1, 2, 1, 1, c)});
    assert [c][1..] == [] && [d, c][1..] == [c];
    assert RespondAll(n', [c][1..], w.pending) == (n', {});
    var o := {ReadIndexResp(1, 2, 1, 1, c)};
    assert o + {} == o && {} + o == o;
    assert RespondAll(n', [c], w.pending) == (n', {ReadIndexResp(1, 2, 1, 1, c)});
  }

  lemma StaleRelease(c: Ctx, d: Ctx)
    requires c != d && c != []
    ensures Step(THREE, Old(1, 1, Both(), Queued(d, c, {1}), []), HeartbeatResp(2, 1, 1, 1, c), 0) ==
            Ok(Old(1, 1, Both(), NoReads, [ReadState(1, d)]), {ReadIndexResp(1, 2, 1, 1, c)})
  {
    TwoDecide(1, 2);
    hide JointVote, RecvAck, Released, Advance, CanAdvance, RespondAll;
    BothAcked(c, d);
    BothReleased(c, d);
    BothAnswered(c, d);
    assert YesFrom({1, 2}) == map[1 := true, 2 := true];
  }

  // ----- the run

  const RV: Msg := RequestVote(1, 2, 1, false, 0, 0, 0, 0, 0)

  const VR: Msg := VoteResp(2, 1, 1, false, false, 0, 0)

  const ACK: Msg := AppendResp(2, 1, 1, 1, false, 0, 0, 0)

  function Third(): Node {
    Following(3, 0, NONE, NONE, [], 0, 0)
  }

  /** Node 2 votes for node 1. */
  lemma Opening() returns (tr: Trace)
    ensures EndsIn(THREE, tr, Nodes(Old(0, 0, ZEROS, NoReads, []), Following(2, 1, 1, NONE, [], 0, 0), Third()), {RV, VR})
    ensures tr.takes == map[]
    ensures Asks(tr.events) == []
  {
    hide EndsIn, TraceOk, Step, Hup;
    var f1, f2 := Following(1, 0, NONE, NONE, [], 0, 0), Following(2, 0, NONE, NONE, [], 0, 0);
    FreshIs(1);
    FreshIs(2);
    FreshIs(3);
    tr := Start(THREE, Nodes(f1, f2, Third()));
    FirstCampaign();
    var r1 := Hup(THREE, f1, false);
    tr := TimesOut(THREE, tr, 1, false, r1, {RV}, Nodes(f1, f2, Third()), {});
    FirstVote();
    var v2 := Following(2, 1, 1, NONE, [], 0, 0);
    assert Nodes(f1, f2, Third())[1 := r1.node] == Nodes(r1.node, f2, Third());
    tr := Arrive(THREE, tr, RV, 0, Ok(v2, {VR}), {VR}, Nodes(r1.node, f2, Third()), {} + {RV});
    FirstElected();
    assert Nodes(r1.node, f2, Third())[2 := v2] == Nodes(r1.node, v2, Third());
    tr := Arrive(THREE, tr, VR, 0, Ok(Old(0, 0, ZEROS, NoReads, []), {}), {}, Nodes(r1.node, v2, Third()), {} + {RV} + {VR});
    assert Nodes(r1.node, v2, Third())[1 := Old(0, 0, ZEROS, NoReads, [])] == Nodes(Old(0, 0, ZEROS, NoReads, []), v2, Third());
    assert {} + {RV} + {VR} + {} == {RV, VR};
  }

  /** Node 1 commits its first entry, which node 2 has too. */
  lemma FirstCommitted() returns (tr: Trace)
    ensures EndsIn(THREE, tr, Nodes(Old(1, 1, Both(), NoReads, []), Following(2, 1, 1, 1, [E1], 0, 0), Third()), {})
    ensures tr.takes == map[]
    ensures Asks(tr.events) == []
  {
    hide EndsIn, TraceOk, Step, LeaderMay, PersistTo, MciOk;
    var v2, f2 := Following(2, 1, 1, NONE, [], 0, 0), Following(2, 1, 1, 1, [E1], 0, 0);
    var l0, l1, l2 := Old(0, 0, ZEROS, NoReads, []), Old(0, 1, ZEROS[1 := 1], NoReads, []), Old(1, 1, Both(), NoReads, []);
    tr := Opening();
    var live := {RV, VR};
    FirstAppend();
    tr := LeaderSend(THREE, tr, 1, FIRST_APPEND, Nodes(l0, v2, Third()), live);
    live := live + {FIRST_APPEND};
    FirstPersisted();
    tr := Persisted(THREE, tr, 1, 1, l1, Nodes(l0, v2, Third()), live);
    assert Nodes(l0, v2, Third())[1 := l1] == Nodes(l1, v2, Third());
    NoAck(FIRST_APPEND, v2, 0);
    tr := Arrive(THREE, tr, FIRST_APPEND, 0, Ok(f2, {ACK}), {ACK}, Nodes(l1, v2, Third()), live);
    live := live + {ACK};
    assert Nodes(l1, v2, Third())[2 := f2] == Nodes(l1, f2, Third());
    FirstCommit();
    tr := Arrive(THREE, tr, ACK, 1, Ok(l2, {}), {}, Nodes(l1, f2, Third()), live);
    assert Nodes(l1, f2, Third())[1 := l2] == Nodes(l2, f2, Third());
    FewerLive(tr, Nodes(l2, f2, Third()), live + {}, {});
  }

  lemma FewerLive(tr: Trace, nodes: map<Id, Node>, live: set<Msg>, fewer: set<Msg>)
    requires EndsIn(THREE, tr, nodes, live) && fewer <= live
    ensures EndsIn(THREE, tr, nodes, fewer)
  {
    hide TraceOk;
  }

  lemma NoAck(m: Msg, n: Node, mci: nat)
    requires !m.AppendResp?
    ensures MciOk(THREE, n, m, mci)
  {
  }

  function Forwarded(c: Ctx): Msg {
    ReadIndex(2, 1, c)
  }

  function Confirmed(c: Ctx): Msg {
    HeartbeatResp(2, 1, 1, 1, c)
  }

  function Answered(c: Ctx): Msg {
    ReadIndexResp(1, 2, 1, 1, c)
  }

  /** Node 2 forwards the read `c`, and node 1 takes it on. */
  lemma FirstAsked(c: Ctx) returns (tr: Trace, p: nat)
    ensures EndsIn(THREE, tr, Nodes(Old(1, 1, Both(), Asked(c, 2, {1}), []), Following(2, 1, 1, 1, [E1], 0, 0), Third()), {Forwarded(c)})
    ensures tr.takes == map[p := (c, 1)]
    ensures Asks(tr.events) == [c]
  {
    hide EndsIn, TraceOk, Step;
    var l2, l3 := Old(1, 1, Both(), NoReads, []), Old(1, 1, Both(), Asked(c, 2, {1}), []);
    var f2 := Following(2, 1, 1, 1, [E1], 0, 0);
    tr := FirstCommitted();
    FirstForward(c);
    tr := Ask(THREE, tr, 2, c, Ok(f2, {Forwarded(c)}), {Forwarded(c)}, Nodes(l2, f2, Third()), {});
    var live := {} + {Forwarded(c)};
    assert Nodes(l2, f2, Third())[2 := f2] == Nodes(l2, f2, Third());
    FirstTakenOn(c);
    p := |tr.events|;
    tr := Arrive(THREE, tr, Forwarded(c), 0, Ok(l3, {}), {}, Nodes(l2, f2, Third()), live);
    assert Nodes(l2, f2, Third())[1 := l3] == Nodes(l3, f2, Third());
    FewerLive(tr, Nodes(l3, f2, Third()), live + {}, {Forwarded(c)});
  }

  /** Node 2 confirms the read, and it is answered. All the messages may come again. */
  lemma FirstConfirmed(c: Ctx) returns (tr: Trace, p: nat)
    requires c != []
    ensures EndsIn(THREE, tr, Nodes(Old(1, 1, Both(), NoReads, []), Following(2, 1, 1, 1, [E1], 1, 0), Third()),
                   {Forwarded(c), Confirmed(c), Answered(c)})
    ensures tr.takes == map[p := (c, 1)]
    ensures Asks(tr.events) == [c]
  {
    hide EndsIn, TraceOk, Step, LeaderMay, TakesRead;
    var l2, l3 := Old(1, 1, Both(), NoReads, []), Old(1, 1, Both(), Asked(c, 2, {1}), []);
    var f2, f3 := Following(2, 1, 1, 1, [E1], 0, 0), Following(2, 1, 1, 1, [E1], 1, 0);
    var beat, answer := Heartbeat(1, 2, 1, 1, c), Answered(c);
    tr, p := FirstAsked(c);
    var live := {Forwarded(c)};
    Beat(c);
    tr := LeaderSend(THREE, tr, 1, beat, Nodes(l3, f2, Third()), live);
    live := live + {beat};
    NotARead(f2, beat);
    tr := Arrive(THREE, tr, beat, 0, Ok(f3, {Confirmed(c)}), {Confirmed(c)}, Nodes(l3, f2, Third()), live);
    live := live + {Confirmed(c)};
    assert Nodes(l3, f2, Third())[2 := f3] == Nodes(l3, f3, Third());
    FirstReleased(c);
    NotARead(l3, Confirmed(c));
    tr := Arrive(THREE, tr, Confirmed(c), 0, Ok(l2, {answer}), {answer}, Nodes(l3, f3, Third()), live);
    assert Nodes(l3, f3, Third())[1 := l2] == Nodes(l2, f3, Third());
    FewerLive(tr, Nodes(l2, f3, Third()), live + {answer}, {Forwarded(c), Confirmed(c), answer});
  }

  lemma FirstRead(c: Ctx) returns (tr: Trace, p: nat)
    requires c != []
    ensures EndsIn(THREE, tr, Nodes(Old(1, 1, Both(), NoReads, []), Following(2, 1, 1, 1, [E1], 1, 0), Third()),
                   {Forwarded(c), Confirmed(c)})
    ensures tr.takes == map[p := (c, 1)]
    ensures Asks(tr.events) == [c]
  {
    hide EndsIn;
    tr, p := FirstConfirmed(c);
    FewerLive(tr, Nodes(Old(1, 1, Both(), NoReads, []), Following(2, 1, 1, 1, [E1], 1, 0), Third()),
              {Forwarded(c), Confirmed(c), Answered(c)}, {Forwarded(c), Confirmed(c)});
  }

  lemma ClientAnswered(c: Ctx)
    ensures Step(THREE, Following(2, 1, 1, 1, [E1], 1, 0), Answered(c), 0) ==
            Ok(Following(2, 1, 1, 1, [E1], 1, 0).(readStates := [ReadState(1, c)]), {})
  {
    assert [] + [ReadState(1, c)] == [ReadState(1, c)];
  }

  /** A read that a client asks at node 2 is forwarded to the leader, confirmed, and answered at node 2. */
  lemma ForwardedReadAnswered(c: Ctx) returns (tr: Trace)
    requires c != []
    ensures TraceOk(THREE, tr) && tr.run != []
    ensures 2 in Last(tr).nodes && Last(tr).nodes[2].readStates == [ReadState(1, c)]
    ensures Asks(tr.events) == [c]
  {
    hide EndsIn, TraceOk, Step, TakesRead;
    var l2, f3 := Old(1, 1, Both(), NoReads, []), Following(2, 1, 1, 1, [E1], 1, 0);
    var f4 := f3.(readStates := [ReadState(1, c)]);
    var p;
    tr, p := FirstConfirmed(c);
    var live := {Forwarded(c), Confirmed(c), Answered(c)};
    ClientAnswered(c);
    NotARead(f3, Answered(c));
    tr := Arrive(THREE, tr, Answered(c), 0, Ok(f4, {}), {}, Nodes(l2, f3, Third()), live);
    assert Nodes(l2, f3, Third())[2 := f4] == Nodes(l2, f4, Third());
    EndsNodes(tr, Nodes(l2, f4, Third()), live + {});
  }

  const VR2: Msg := VoteResp(3, 2, 2, false, false, 0, 0)

  const ACK2: Msg := AppendResp(3, 2, 2, 2, false, 0, 0, 1)

  /** Node 3 elects node 2, which commits another entry; node 1 does not notice. */
  lemma SecondLeader(c: Ctx) returns (tr: Trace, p: nat)
    requires c != []
    ensures EndsIn(THREE, tr, Nodes(Old(1, 1, Both(), NoReads, []), New(1, 1, ZEROS[2 := 1]), Following(3, 2, 2, NONE, [], 0, 0)),
                   {Forwarded(c), Confirmed(c)})
    ensures tr.takes == map[p := (c, 1)] && p < |tr.events|
    ensures Asks(tr.events) == [c]
  {
    hide EndsIn, TraceOk, Step, Hup, PersistTo;
    var l2 := Old(1, 1, Both(), NoReads, []);
    var f3, f4, run := Following(2, 1, 1, 1, [E1], 1, 0), Following(2, 1, 1, 1, [E1], 1, 1), Running().(matched := ZEROS[2 := 1]);
    var t1 := Following(3, 2, 2, NONE, [], 0, 0);
    tr, p := FirstRead(c);
    var live := {Forwarded(c), Confirmed(c)};
    SecondPersisted();
    tr := Persisted(THREE, tr, 2, 1, f4, Nodes(l2, f3, Third()), live);
    assert Nodes(l2, f3, Third())[2 := f4] == Nodes(l2, f4, Third());
    SecondCampaign();
    var r := Hup(THREE, f4, false);
    tr := TimesOut(THREE, tr, 2, false, r, {SECOND_REQUEST}, Nodes(l2, f4, Third()), live);
    live := live + {SECOND_REQUEST};
    assert Nodes(l2, f4, Third())[2 := run] == Nodes(l2, run, Third());
    SecondVote();
    tr := Arrive(THREE, tr, SECOND_REQUEST, 0, Ok(t1, {VR2}), {VR2}, Nodes(l2, run, Third()), live);
    live := live + {VR2};
    assert Nodes(l2, run, Third())[3 := t1] == Nodes(l2, run, t1);
    SecondElected();
    tr := Arrive(THREE, tr, VR2, 0, Ok(New(1, 1, ZEROS[2 := 1]), {}), {}, Nodes(l2, run, t1), live);
    assert Nodes(l2, run, t1)[2 := New(1, 1, ZEROS[2 := 1])] == Nodes(l2, New(1, 1, ZEROS[2 := 1]), t1);
    FewerLive(tr, Nodes(l2, New(1, 1, ZEROS[2 := 1]), t1), live + {}, {Forwarded(c), Confirmed(c)});
    TakesEarlier(tr, p, Nodes(l2, New(1, 1, ZEROS[2 := 1]), t1), live + {});
  }

  lemma TakesEarlier(tr: Trace, p: nat, nodes: map<Id, Node>, live: set<Msg>)
    requires EndsIn(THREE, tr, nodes, live) && p in tr.takes
    ensures p < |tr.events|
  {
  }

  lemma SecondCommitted(c: Ctx) returns (tr: Trace, p: nat)
    requires c != []
    ensures EndsIn(THREE, tr, Nodes(Old(1, 1, Both(), NoReads, []), New(2, 2, ZEROS[2 := 2][3 := 2]),
                                    Following(3, 2, 2, 2, [E1, E2], 1, 0)), {Forwarded(c), Confirmed(c)})
    ensures tr.takes == map[p := (c, 1)] && p < |tr.events|
    ensures Asks(tr.events) == [c]
  {
    hide EndsIn, TraceOk, Step, LeaderMay, PersistTo, MciOk;
    var l2 := Old(1, 1, Both(), NoReads, []);
    var n0, n1, n2 := New(1, 1, ZEROS[2 := 1]), New(1, 2, ZEROS[2 := 2]), New(2, 2, ZEROS[2 := 2][3 := 2]);
    var t1, t2 := Following(3, 2, 2, NONE, [], 0, 0), Following(3, 2, 2, 2, [E1, E2], 1, 0);
    tr, p := SecondLeader(c);
    var live := {Forwarded(c), Confirmed(c)};
    SecondAppend();
    tr := LeaderSend(THREE, tr, 2, SECOND_APPEND, Nodes(l2, n0, t1), live);
    live := live + {SECOND_APPEND};
    SecondLogPersisted();
    tr := Persisted(THREE, tr, 2, 2, n1, Nodes(l2, n0, t1), live);
    assert Nodes(l2, n0, t1)[2 := n1] == Nodes(l2, n1, t1);
    NoAck(SECOND_APPEND, t1, 0);
    tr := Arrive(THREE, tr, SECOND_APPEND, 0, Ok(t2, {ACK2}), {ACK2}, Nodes(l2, n1, t1), live);
    live := live + {ACK2};
    assert Nodes(l2, n1, t1)[3 := t2] == Nodes(l2, n1, t2);
    SecondCommit();
    tr := Arrive(THREE, tr, ACK2, 2, Ok(n2, {}), {}, Nodes(l2, n1, t2), live);
    assert Nodes(l2, n1, t2)[2 := n2] == Nodes(l2, n2, t2);
    FewerLive(tr, Nodes(l2, n2, t2), live + {}, {Forwarded(c), Confirmed(c)});
    TakesEarlier(tr, p, Nodes(l2, n2, t2), live + {});
  }

  function Committed2(): Node {
    New(2, 2, ZEROS[2 := 2][3 := 2])
  }

  function Third2(): Node {
    Following(3, 2, 2, 2, [E1, E2], 1, 0)
  }

  /** Node 1, which still leads term 1, is asked `d` when node 2 has committed more. */
  lemma LateAsk(c: Ctx, d: Ctx) returns (tr: Trace, p: nat, q: nat)
    requires c != d && c != []
    ensures EndsIn(THREE, tr, Nodes(Old(1, 1, Both(), Asked(d, NONE, {1}), []), Committed2(), Third2()), {Forwarded(c), Confirmed(c)})
    ensures tr.takes == map[p := (c, 1), q := (d, 1)] && p < q < |tr.events| < |tr.run|
    ensures tr.run[q].nodes == Nodes(Old(1, 1, Both(), NoReads, []), Committed2(), Third2())
    ensures Asks(tr.events) == [c, d]
  {
    hide EndsIn, TraceOk, Step, TakesRead;
    var l2, l3 := Old(1, 1, Both(), NoReads, []), Old(1, 1, Both(), Asked(d, NONE, {1}), []);
    var n2, t2 := Committed2(), Third2();
    tr, p := SecondCommitted(c);
    var live := {Forwarded(c), Confirmed(c)};
    EndsNodes(tr, Nodes(l2, n2, t2), live);
    q := |tr.events|;
    AskedLate(d);
    tr := Ask(THREE, tr, 1, d, Ok(l3, {}), {}, Nodes(l2, n2, t2), live);
    assert Nodes(l2, n2, t2)[1 := l3] == Nodes(l3, n2, t2);
    EndsNodes(tr, Nodes(l3, n2, t2), live + {});
    FewerLive(tr, Nodes(l3, n2, t2), live + {}, live);
  }

  /** The whole run: `d` is taken on once, at step `q`, when node 2 has committed two entries, but it is
      answered with one. `c` is asked once, but its forwarded request and its confirmation arrive twice. */
  lemma StaleRun(c: Ctx, d: Ctx) returns (tr: Trace, p: nat, q: nat, p': nat)
    requires c != d && c != []
    ensures TraceOk(THREE, tr) && tr.run != []
    ensures tr.takes == map[p := (c, 1), q := (d, 1), p' := (c, 1)] && p < q < p' < |tr.events| < |tr.run|
    ensures 2 in tr.run[q].nodes && tr.run[q].nodes[2].committed == 2
    ensures 1 in Last(tr).nodes && ReadState(1, d) in Last(tr).nodes[1].readStates
    ensures Asks(tr.events) == [c, d]
  {
    hide EndsIn, TraceOk, Step, TakesRead;
    var l3, l4 := Old(1, 1, Both(), Asked(d, NONE, {1}), []), Old(1, 1, Both(), Queued(d, c, {1}), []);
    var l5 := Old(1, 1, Both(), NoReads, [ReadState(1, d)]);
    var n2, t2 := Committed2(), Third2();
    var answer := ReadIndexResp(1, 2, 1, 1, c);
    tr, p, q := LateAsk(c, d);
    var live, tr0 := {Forwarded(c), Confirmed(c)}, tr;
    TakenAgain(c, d);
    p' := |tr.events|;
    tr := Arrive(THREE, tr, Forwarded(c), 0, Ok(l4, {}), {}, Nodes(l3, n2, t2), live);
    var tr1 := tr;
    assert Nodes(l3, n2, t2)[1 := l4] == Nodes(l4, n2, t2);
    StaleRelease(c, d);
    NotARead(l4, Confirmed(c));
    tr := Arrive(THREE, tr, Confirmed(c), 0, Ok(l5, {answer}), {}, Nodes(l4, n2, t2), live + {});
    ContinuesTrans(tr0, tr1, tr);
    assert Nodes(l4, n2, t2)[1 := l5] == Nodes(l5, n2, t2);
    EndsNodes(tr, Nodes(l5, n2, t2), live + {} + {});
  }

  lemma NotARead(n: Node, m: Msg)
    requires !m.ReadIndex?
    ensures !TakesRead(THREE, n, m)
  {
  }

  lemma EndsNodes(tr: Trace, nodes: map<Id, Node>, live: set<Msg>)
    requires EndsIn(THREE, tr, nodes, live)
    ensures TraceOk(THREE, tr) && tr.run != [] && Last(tr).nodes == nodes && |tr.run| == |tr.events| + 1
  {
  }

  // ----- exactly when answers cover what was committed

  /** An answer in a run in which only contexts of `a` are taken on twice in one term. */
  ghost predicate AnswerCase(g: Group, run: seq<State>, events: seq<Event>, j: nat, x: Id, r: ReadState, a: iset<Ctx>) {
    && GroupOk(g) && IsRun(g, run, events)
    && j < |run| && x in run[j].nodes && r in run[j].nodes[x].readStates
    && forall c, t: nat :: TakenTwice(g, run, events, j, c, t) ==> c in a
  }

  /** Whatever run it is, as long as only contexts of `a` are taken on twice, every answer covers what
      was committed when its read was first taken on. */
  ghost predicate AllCovered(a: iset<Ctx>) {
    forall g, run, events, j, x, r :: AnswerCase(g, run, events, j, x, r, a) ==> Covered(g, run, events, j, r)
  }

  lemma OnlyFirst(tr: Trace, c: Ctx, d: Ctx, p: nat, q: nat, p': nat)
    requires TraceOk(THREE, tr) && tr.run != [] && c != d && p < q < p' < |tr.events| < |tr.run|
    requires tr.takes == map[p := (c, 1), q := (d, 1), p' := (c, 1)]
    ensures forall i: nat, t: nat :: i < |tr.events| && TakesOn(THREE, tr.run[i], tr.events[i], d, t) ==> i == q && t == 1
    ensures forall e, t: nat :: TakenTwice(THREE, tr.run, tr.events, |tr.events|, e, t) ==> e == c
  {
    hide Taken, IsRun;
    forall i: nat, e, t: nat | i < |tr.events| && TakesOn(THREE, tr.run[i], tr.events[i], e, t)
      ensures i in tr.takes && tr.takes[i] == (e, t)
    {
    }
  }

  /** If some other than the empty context may be taken on twice, an answer can be too small. */
  lemma StaleAnswer(a: iset<Ctx>, c: Ctx)
    requires c in a && c != []
    ensures !AllCovered(a)
  {
    hide TraceOk, AnswerCase, Covered;
    var d := c + [0];
    var tr, p, q, p' := StaleRun(c, d);
    var r, j := ReadState(1, d), |tr.events|;
    TraceIsRun(tr);
    OnlyFirst(tr, c, d, p, q, p');
    StaleCase(tr, a, c, j, r);
    NotCovered(tr, d, q, r);
    assert AnswerCase(THREE, tr.run, tr.events, j, 1, r, a) && !Covered(THREE, tr.run, tr.events, j, r);
  }

  lemma TraceIsRun(tr: Trace)
    requires TraceOk(THREE, tr)
    ensures IsRun(THREE, tr.run, tr.events) && |tr.run| == |tr.events| + 1
  {
  }

  lemma StaleCase(tr: Trace, a: iset<Ctx>, c: Ctx, j: nat, r: ReadState)
    requires IsRun(THREE, tr.run, tr.events) && j == |tr.events| && c in a
    requires 1 in Last(tr).nodes && r in Last(tr).nodes[1].readStates
    requires forall e, t: nat :: TakenTwice(THREE, tr.run, tr.events, j, e, t) ==> e == c
    ensures AnswerCase(THREE, tr.run, tr.events, j, 1, r, a)
  {
    hide IsRun, TakenTwice;
    LastIndex(tr, j);
  }

  lemma LastIndex(tr: Trace, j: nat)
    requires IsRun(THREE, tr.run, tr.events) && j == |tr.events|
    ensures tr.run != [] && j < |tr.run| && tr.run[j] == Last(tr)
  {
  }

  lemma NotCovered(tr: Trace, d: Ctx, q: nat, r: ReadState)
    requires |tr.run| == |tr.events| + 1 && q < |tr.events| && r == ReadState(1, d)
    requires forall i: nat, t: nat :: i < |tr.events| && TakesOn(THREE, tr.run[i], tr.events[i], d, t) ==> i == q && t == 1
    requires 2 in tr.run[q].nodes && tr.run[q].nodes[2].committed == 2
    ensures !Covered(THREE, tr.run, tr.events, |tr.events|, r)
  {
    hide Taken;
  }

  /** Answers are sure to cover what was committed when their reads were first taken on exactly if no
      leader takes on a context twice in its term, other than the empty one, which confirms nothing. */
  lemma ReadsCoveredExactly(a: iset<Ctx>)
    ensures AllCovered(a) <==> forall c :: c in a ==> c == []
  {
    hide TakenTwice, Covered;
    if c :| c in a && c != [] {
      StaleAnswer(a, c);
    } else {
      forall g, run, events, j, x, r | AnswerCase(g, run, events, j, x, r, a)
        ensures Covered(g, run, events, j, r)
      {
        ReadIndexLinearizable(g, run, events, j, x, r);
      }
    }
  }

  // ----- the same context asked again

  lemma SameRelease(c: Ctx)
    requires c != []
    ensures Step(THREE, Old(1, 1, Both(), Asked(c, NONE, {1}), []), HeartbeatResp(2, 1, 1, 1, c), 0) ==
            Ok(Old(1, 1, Both(), NoReads, [ReadState(1, c)]), {})
  {
    TwoDecide(1, 2);
    hide JointVote;
    var w := RecvAck(Asked(c, NONE, {1}), 2, c);
    assert {1} + {2} == {1, 2};
    assert w.pending == map[c := ReadStatus(NONE, 1, {1, 2})];
    assert YesFrom({1, 2}) == map[1 := true, 2 := true];
    assert Position([c], c) == 0 && [c][..1] == [c] && [c][1..] == [];
    assert Released(w, c) == [c] && Advance(w, c) == NoReads;
    var n, n' := Old(1, 1, Both(), NoReads, []), Old(1, 1, Both(), NoReads, [ReadState(1, c)]);
    assert [] + [ReadState(1, c)] == [ReadState(1, c)];
    assert RespondAll(n, [c], w.pending) == (n', {}) by {
      assert RespondAll(n', [c][1..], w.pending) == (n', {});
    }
  }

  /** A context that was answered is asked again at step `q`, when node 2 has committed more; a repeated
      confirmation of the first request answers the second with the old index. */
  lemma SameContextStale(c: Ctx) returns (tr: Trace, p: nat, q: nat)
    requires c != []
    ensures TraceOk(THREE, tr) && tr.run != []
    ensures tr.takes == map[p := (c, 1), q := (c, 1)] && p < q < |tr.events| < |tr.run|
    ensures 2 in tr.run[q].nodes && tr.run[q].nodes[2].committed == 2
    ensures 1 in tr.run[q].nodes && tr.run[q].nodes[1].readStates == []
    ensures 1 in Last(tr).nodes && Last(tr).nodes[1].readStates == [ReadState(1, c)]
    ensures Asks(tr.events) == [c, c]
  {
    hide EndsIn, TraceOk, Step, TakesRead;
    var l2, l3 := Old(1, 1, Both(), NoReads, []), Old(1, 1, Both(), Asked(c, NONE, {1}), []);
    var l5 := Old(1, 1, Both(), NoReads, [ReadState(1, c)]);
    var n2, t2 := Committed2(), Third2();
    tr, p := SecondCommitted(c);
    var live := {Forwarded(c), Confirmed(c)};
    EndsNodes(tr, Nodes(l2, n2, t2), live);
    q := |tr.events|;
    AskedLate(c);
    var tr0 := tr;
    tr := Ask(THREE, tr, 1, c, Ok(l3, {}), {}, Nodes(l2, n2, t2), live);
    var tr1 := tr;
    assert Nodes(l2, n2, t2)[1 := l3] == Nodes(l3, n2, t2);
    SameRelease(c);
    NotARead(l3, Confirmed(c));
    tr := Arrive(THREE, tr, Confirmed(c), 0, Ok(l5, {}), {}, Nodes(l3, n2, t2), live + {});
    ContinuesTrans(tr0, tr1, tr);
    assert Nodes(l3, n2, t2)[1 := l5] == Nodes(l5, n2, t2);
    EndsNodes(tr, Nodes(l5, n2, t2), live + {} + {});
  }
}
