/** A configuration written as a state and restored from it (raft-rs/src/confchange/restore.rs,
    raft-rs/proto/src/confstate.rs). */
module Restore {
  import opened Types
  import opened Quorum
  import opened ConfChange

  /** The lists may come in any order. */
  datatype ConfState = ConfState(voters: seq<Id>, learners: seq<Id>, votersOutgoing: seq<Id>, learnersNext: seq<Id>, autoLeave: bool)

  predicate EqWithoutOrder(a: seq<Id>, b: seq<Id>) {
    (forall x :: x in a ==> x in b) && (forall x :: x in b ==> x in a)
  }

  /** `conf_state_eq`. */
  predicate ConfStateEq(a: ConfState, b: ConfState) {
    || a == b
    || (&& EqWithoutOrder(a.voters, b.voters)
        && EqWithoutOrder(a.learners, b.learners)
        && EqWithoutOrder(a.votersOutgoing, b.votersOutgoing)
        && EqWithoutOrder(a.learnersNext, b.learnersNext)
        && a.autoLeave == b.autoLeave)
  }

  function Ids(s: seq<Id>): set<Id> {
    set x | x in s
  }

  /** `to_conf_state`: the sets listed in some order. */
  predicate Describes(cs: ConfState, c: Conf) {
    && Ids(cs.voters) == c.voters.incoming
    && Ids(cs.votersOutgoing) == c.voters.outgoing
    && Ids(cs.learners) == c.learners
    && Ids(cs.learnersNext) == c.learnersNext
    && cs.autoLeave == c.autoLeave
  }

  /** Two states are equal for `conf_state_eq` exactly when they describe the same configuration. */
  lemma ConfStateEqIsSameConf(a: ConfState, b: ConfState, c: Conf)
    requires Describes(a, c)
    ensures ConfStateEq(a, b) <==> Describes(b, c)
  {
    SameIds(a.voters, b.voters);
    SameIds(a.learners, b.learners);
    SameIds(a.votersOutgoing, b.votersOutgoing);
    SameIds(a.learnersNext, b.learnersNext);
  }

  lemma SameIds(a: seq<Id>, b: seq<Id>)
    ensures EqWithoutOrder(a, b) <==> Ids(a) == Ids(b)
  {
    if Ids(a) == Ids(b) {
      forall x ensures x in a <==> x in b {
        assert x in a <==> x in Ids(a);
        assert x in b <==> x in Ids(b);
      }
    }
  }

  // ----- the changes that build a configuration

  function Changes(ctype: ChangeType, ids: seq<Id>): seq<ConfChangeSingle> {
    if ids == [] then [] else [ConfChangeSingle(ctype, ids[0])] + Changes(ctype, ids[1..])
  }

  /** `to_conf_change_single`: the changes that create the outgoing configuration, then the incoming one. */
  function ToConfChangeSingle(cs: ConfState): (seq<ConfChangeSingle>, seq<ConfChangeSingle>) {
    (Changes(AddNode, cs.votersOutgoing),
     Changes(RemoveNode, cs.votersOutgoing) + (Changes(AddNode, cs.voters)
     + (Changes(AddLearnerNode, cs.learners) + Changes(AddLearnerNode, cs.learnersNext))))
  }

  /** One simple change after the other. */
  function SimpleEach(t: Tracker, ccs: seq<ConfChangeSingle>, next: nat): Result<Tracker>
    decreases |ccs|
  {
    if ccs == [] then Ok(t)
    else
      var r := Simple(t, [ccs[0]]);
      if r.Err? then Err(r.error) else SimpleEach(ApplyConf(t, r.value.0, r.value.1, next), ccs[1..], next)
  }

  function Restored(t: Tracker, next: nat, cs: ConfState): Result<Tracker> {
    var (outgoing, incoming) := ToConfChangeSingle(cs);
    if outgoing == [] then SimpleEach(t, incoming, next)
    else
      var r := SimpleEach(t, outgoing, next);
      if r.Err? then r
      else
        var e := EnterJoint(r.value, cs.autoLeave, incoming);
        if e.Err? then Err(e.error) else Ok(ApplyConf(r.value, e.value.0, e.value.1, next))
  }

  const EMPTY_TRACKER: Tracker := Tracker(map[], EMPTY_CONF)

  // ----- their effect

  lemma {:induction false} EffectAllConcat(c: Conf, a: seq<ConfChangeSingle>, b: seq<ConfChangeSingle>)
    ensures EffectAll(c, a + b) == EffectAll(EffectAll(c, a), b)
    decreases |a|
  {
    if a == [] {
      assert a + b == b;
    } else {
      EffectAllConcat(Effect(c, a[0]), a[1..], b);
      assert (a + b)[1..] == a[1..] + b;
    }
  }

  lemma IdsSplit(ids: seq<Id>)
    requires ids != []
    ensures Ids(ids) == {ids[0]} + Ids(ids[1..])
  {
    assert ids == [ids[0]] + ids[1..];
  }

  lemma {:induction false} AddsEffect(c: Conf, ids: seq<Id>)
    requires NONE !in ids
    ensures EffectAll(c, Changes(AddNode, ids)) ==
            Conf(c.voters.(incoming := c.voters.incoming + Ids(ids)), c.learners - Ids(ids), c.learnersNext - Ids(ids), c.autoLeave)
    decreases |ids|
  {
    if ids != [] {
      IdsSplit(ids);
      AddsEffect(Effect(c, ConfChangeSingle(AddNode, ids[0])), ids[1..]);
    }
  }

  lemma {:induction false} RemovesEffect(c: Conf, ids: seq<Id>)
    requires NONE !in ids
    ensures EffectAll(c, Changes(RemoveNode, ids)) ==
            Conf(c.voters.(incoming := c.voters.incoming - Ids(ids)), c.learners - Ids(ids), c.learnersNext - Ids(ids), c.autoLeave)
    decreases |ids|
  {
    if ids != [] {
      IdsSplit(ids);
      RemovesEffect(Effect(c, ConfChangeSingle(RemoveNode, ids[0])), ids[1..]);
    }
  }

  /** New learners that are no voters. */
  lemma {:induction false} LearnersEffect(c: Conf, ids: seq<Id>)
    requires NONE !in ids && Ids(ids) !! Voters(c.voters)
    ensures EffectAll(c, Changes(AddLearnerNode, ids)) == c.(learners := c.learners + Ids(ids))
    decreases |ids|
  {
    if ids != [] {
      IdsSplit(ids);
      var c1 := Effect(c, ConfChangeSingle(AddLearnerNode, ids[0]));
      assert c1 == c.(learners := c.learners + {ids[0]});
      LearnersEffect(c1, ids[1..]);
    }
  }

  /** Learners that are still outgoing voters are staged. */
  lemma {:induction false} StagedEffect(c: Conf, ids: seq<Id>)
    requires NONE !in ids && Ids(ids) <= c.voters.outgoing && Ids(ids) !! c.voters.incoming
    ensures EffectAll(c, Changes(AddLearnerNode, ids)) == c.(learnersNext := c.learnersNext + Ids(ids))
    decreases |ids|
  {
    if ids != [] {
      IdsSplit(ids);
      var c1 := Effect(c, ConfChangeSingle(AddLearnerNode, ids[0]));
      assert c1 == c.(learnersNext := c.learnersNext + {ids[0]});
      StagedEffect(c1, ids[1..]);
    }
  }

  // ----- one by one

  /** A change that moves at most one voter and leaves one is accepted as a simple change. */
  lemma SimpleOne(t: Tracker, cc: ConfChangeSingle, next: nat)
    requires TrackerOk(t) && !Joint(t.conf)
    requires var c := Effect(t.conf, cc);
             c.voters.incoming != {} && |Difference(c.voters.incoming, t.conf.voters.incoming)| <= 1
    ensures Simple(t, [cc]).Ok?
    ensures var r := Simple(t, [cc]).value;
            var t' := ApplyConf(t, r.0, r.1, next);
            t'.conf == Effect(t.conf, cc) && TrackerOk(t') && !Joint(t'.conf)
  {
    hide Effect, Difference, Simple, TrackerOk, ApplyAll;
    assert [cc][1..] == [];
    assert EffectAll(t.conf, [cc]) == EffectAll(Effect(t.conf, cc), []) == Effect(t.conf, cc);
    SimpleExactly(t, [cc]);
    var r := Simple(t, [cc]).value;
    AcceptedKeepsOk(t, Plain([cc]), next, ApplyConf(t, r.0, r.1, next));
  }

  lemma {:induction false} SimpleAdds(t: Tracker, ids: seq<Id>, next: nat)
    requires TrackerOk(t) && !Joint(t.conf) && NONE !in ids
    ensures var r := SimpleEach(t, Changes(AddNode, ids), next);
            r.Ok? && TrackerOk(r.value) && !Joint(r.value.conf) && r.value.conf == EffectAll(t.conf, Changes(AddNode, ids))
    decreases |ids|
  {
    hide TrackerOk, Simple;
    if ids != [] {
      var cc := ConfChangeSingle(AddNode, ids[0]);
      assert Difference(t.conf.voters.incoming + {ids[0]}, t.conf.voters.incoming) <= {ids[0]};
      SubsetSize(Difference(t.conf.voters.incoming + {ids[0]}, t.conf.voters.incoming), {ids[0]});
      SimpleOne(t, cc, next);
      var r := Simple(t, [cc]).value;
      SimpleAdds(ApplyConf(t, r.0, r.1, next), ids[1..], next);
    }
  }

  lemma {:induction false} SimpleLearners(t: Tracker, ids: seq<Id>, next: nat)
    requires TrackerOk(t) && !Joint(t.conf) && NONE !in ids
    requires t.conf.voters.incoming != {} && Ids(ids) !! t.conf.voters.incoming
    ensures var r := SimpleEach(t, Changes(AddLearnerNode, ids), next);
            r.Ok? && TrackerOk(r.value) && r.value.conf == EffectAll(t.conf, Changes(AddLearnerNode, ids))
    decreases |ids|
  {
    hide TrackerOk, Simple;
    if ids != [] {
      IdsSplit(ids);
      var cc := ConfChangeSingle(AddLearnerNode, ids[0]);
      assert t.conf.voters.incoming - {ids[0]} == t.conf.voters.incoming;
      assert Difference(t.conf.voters.incoming, t.conf.voters.incoming) == {};
      SimpleOne(t, cc, next);
      var r := Simple(t, [cc]).value;
      SimpleLearners(ApplyConf(t, r.0, r.1, next), ids[1..], next);
    }
  }

  lemma {:induction false} SimpleEachConcat(t: Tracker, a: seq<ConfChangeSingle>, b: seq<ConfChangeSingle>, next: nat)
    requires SimpleEach(t, a, next).Ok?
    ensures SimpleEach(t, a + b, next) == SimpleEach(SimpleEach(t, a, next).value, b, next)
    decreases |a|
  {
    hide Simple;
    if a == [] {
      assert a + b == b;
    } else {
      var r := Simple(t, [a[0]]).value;
      SimpleEachConcat(ApplyConf(t, r.0, r.1, next), a[1..], b, next);
      assert (a + b)[1..] == a[1..] + b;
    }
  }

  // ----- the round trip

  lemma EmptyOk()
    ensures TrackerOk(EMPTY_TRACKER)
  {
  }

  lemma NoneOutside(t: Tracker, cs: ConfState)
    requires TrackerOk(t) && Describes(cs, t.conf)
    ensures NONE !in cs.voters && NONE !in cs.votersOutgoing && NONE !in cs.learners && NONE !in cs.learnersNext
  {
    assert NONE !in Ids(cs.voters) && NONE !in Ids(cs.votersOutgoing) && NONE !in Ids(cs.learners) && NONE !in Ids(cs.learnersNext);
  }

  /** A configuration that is not joint is rebuilt one voter and one learner at a time. */
  lemma PlainRoundTrip(t: Tracker, cs: ConfState, next: nat)
    requires TrackerOk(t) && Describes(cs, t.conf) && !Joint(t.conf)
    ensures Restored(EMPTY_TRACKER, next, cs).Ok?
    ensures var t' := Restored(EMPTY_TRACKER, next, cs).value; TrackerOk(t') && t'.conf == t.conf
  {
    NoneOutside(t, cs);
    EmptyOk();
    NoIds(cs.votersOutgoing);
    NoIds(cs.learnersNext);
    var adds, learns := Changes(AddNode, cs.voters), Changes(AddLearnerNode, cs.learners);
    assert [] + (adds + (learns + [])) == adds + learns;
    assert ToConfChangeSingle(cs) == ([], adds + learns);
    SimpleAdds(EMPTY_TRACKER, cs.voters, next);
    AddsEffect(EMPTY_CONF, cs.voters);
    SimpleEachConcat(EMPTY_TRACKER, adds, learns, next);
    var t1 := SimpleEach(EMPTY_TRACKER, adds, next).value;
    hide Simple, Changes, EffectAll, SimpleEach;
    if t.conf.voters.incoming != {} {
      SimpleLearners(t1, cs.learners, next);
      LearnersEffect(t1.conf, cs.learners);
    } else {
      NoIds(cs.learners);
      NoChanges(t1, next);
    }
  }

  lemma NoIds(ids: seq<Id>)
    ensures ids == [] <==> Ids(ids) == {}
  {
    assert ids != [] ==> ids[0] in Ids(ids);
  }

  lemma NoChanges(t: Tracker, next: nat)
    ensures SimpleEach(t, Changes(AddLearnerNode, []), next) == Ok(t)
  {
  }

  /** The effect of the incoming changes on a configuration that was just entered from `outgoing`. */
  lemma JointEffect(t: Tracker, cs: ConfState)
    requires TrackerOk(t) && Describes(cs, t.conf)
    ensures var o := t.conf.voters.outgoing;
            EffectAll(Conf(JointConfig(o, o), {}, {}, false), ToConfChangeSingle(cs).1) == t.conf.(autoLeave := false)
  {
    NoneOutside(t, cs);
    hide EffectAll, Changes;
    var o := t.conf.voters.outgoing;
    var c0 := Conf(JointConfig(o, o), {}, {}, false);
    var d1, d2, d3, d4 := Changes(RemoveNode, cs.votersOutgoing), Changes(AddNode, cs.voters),
                          Changes(AddLearnerNode, cs.learners), Changes(AddLearnerNode, cs.learnersNext);
    EffectAllConcat(c0, d1, d2 + (d3 + d4));
    RemovesEffect(c0, cs.votersOutgoing);
    var c1 := EffectAll(c0, d1);
    assert c1 == Conf(JointConfig({}, o), {}, {}, false);
    EffectAllConcat(c1, d2, d3 + d4);
    AddsEffect(c1, cs.voters);
    var c2 := EffectAll(c1, d2);
    assert c2 == Conf(t.conf.voters, {}, {}, false);
    EffectAllConcat(c2, d3, d4);
    LearnersEffect(c2, cs.learners);
    StagedEffect(EffectAll(c2, d3), cs.learnersNext);
  }

  /** A joint configuration is rebuilt by adding the outgoing voters and entering the joint state. */
  lemma JointRoundTrip(t: Tracker, cs: ConfState, next: nat)
    requires TrackerOk(t) && Describes(cs, t.conf) && Joint(t.conf)
    ensures Restored(EMPTY_TRACKER, next, cs).Ok?
    ensures var t' := Restored(EMPTY_TRACKER, next, cs).value; TrackerOk(t') && t'.conf == t.conf
  {
    NoneOutside(t, cs);
    EmptyOk();
    var adds := Changes(AddNode, cs.votersOutgoing);
    SimpleAdds(EMPTY_TRACKER, cs.votersOutgoing, next);
    AddsEffect(EMPTY_CONF, cs.votersOutgoing);
    NoIds(cs.votersOutgoing);
    var t1 := SimpleEach(EMPTY_TRACKER, adds, next).value;
    var o := t.conf.voters.outgoing;
    assert t1.conf == Conf(JointConfig(o, {}), {}, {}, false);
    assert Doubled(t1).conf == Conf(JointConfig(o, o), {}, {}, false);
    JointEffect(t, cs);
    var incoming := ToConfChangeSingle(cs).1;
    hide EffectAll, SimpleEach, EnterJoint;
    EnterJointExactly(t1, cs.autoLeave, incoming);
    var e := EnterJoint(t1, cs.autoLeave, incoming).value;
    assert e.0 == t.conf;
    AcceptedKeepsOk(t1, Enter(cs.autoLeave, incoming), next, ApplyConf(t1, e.0, e.1, next));
  }

  /** For every reachable configuration, restoring its written state on an empty tracker succeeds and
      gives the same configuration and the same progress keys; and any state written from the result
      is equal to the one restored. */
  lemma RestoreRoundTrip(t: Tracker, cs: ConfState, next: nat)
    requires TrackerOk(t) && Describes(cs, t.conf)
    ensures Restored(EMPTY_TRACKER, next, cs).Ok?
    ensures var t' := Restored(EMPTY_TRACKER, next, cs).value;
            && t'.conf == t.conf && t'.progress.Keys == t.progress.Keys
            && forall cs' :: Describes(cs', t'.conf) <==> ConfStateEq(cs, cs')
  {
    hide Restored, Describes, ConfStateEq;
    if Joint(t.conf) {
      JointRoundTrip(t, cs, next);
    } else {
      PlainRoundTrip(t, cs, next);
    }
    forall cs' ensures Describes(cs', t.conf) <==> ConfStateEq(cs, cs') {
      ConfStateEqIsSameConf(cs, cs', t.conf);
    }
  }
}
