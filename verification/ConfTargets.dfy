/** Where a membership change leads, said by the role that each peer ends up with
    (raft-rs/src/confchange/changer.rs, raft-rs/src/tracker.rs). */
module ConfTargets {
  import opened Types
  import opened Quorum
  import opened ConfChange

  /** The last change of a peer in a list of changes, if any; a zero id marks a cancelled one. */
  function LastChangeOf(ccs: seq<ConfChangeSingle>, id: Id): (o: Option<ChangeType>)
    ensures o.None? ==> forall k :: 0 <= k < |ccs| ==> ccs[k].id != id
    ensures o.Some? ==> exists k :: 0 <= k < |ccs| && ccs[k] == ConfChangeSingle(o.value, id)
                                    && forall j :: k < j < |ccs| ==> ccs[j].id != id
  {
    if ccs == [] then None
    else
      var n := |ccs| - 1;
      if ccs[n].id == id then assert ccs[n] == ConfChangeSingle(ccs[n].ctype, id); Some(ccs[n].ctype)
      else
        var o := LastChangeOf(ccs[..n], id);
        assert o.Some? ==> exists k :: 0 <= k < n && ccs[k] == ConfChangeSingle(o.value, id)
                                       && forall j :: k < j < |ccs| ==> ccs[j].id != id by {
          if o.Some? {
            var k :| 0 <= k < n && ccs[..n][k] == ConfChangeSingle(o.value, id) && forall j :: k < j < n ==> ccs[..n][j].id != id;
            assert ccs[k] == ConfChangeSingle(o.value, id);
            forall j | k < j < |ccs| ensures ccs[j].id != id {
              if j < n {
                assert ccs[..n][j].id != id;
              }
            }
          }
        }
        o
  }

  lemma {:induction false} EffectAllLast(c: Conf, ccs: seq<ConfChangeSingle>)
    requires ccs != []
    ensures EffectAll(c, ccs) == Effect(EffectAll(c, ccs[..|ccs| - 1]), ccs[|ccs| - 1])
    decreases |ccs|
  {
    var n := |ccs| - 1;
    hide Effect;
    if n == 0 {
      assert ccs[..0] == [] && ccs[1..] == [];
    } else {
      EffectAllLast(Effect(c, ccs[0]), ccs[1..]);
      assert ccs[1..][..n - 1] == ccs[..n][1..];
      assert ccs[..n] != [] && ccs[..n][0] == ccs[0];
    }
  }

  /** The last change of a peer decides its role, and a peer without one keeps its role. An outgoing voter that
      becomes a learner is staged until the joint configuration is left. */
  lemma {:induction false} LastChangeDecides(c: Conf, ccs: seq<ConfChangeSingle>, id: Id)
    requires id != NONE
    ensures var r := EffectAll(c, ccs);
            && r.voters.outgoing == c.voters.outgoing && r.autoLeave == c.autoLeave
            && match LastChangeOf(ccs, id)
               case None =>
                 && (id in r.voters.incoming <==> id in c.voters.incoming)
                 && (id in r.learners <==> id in c.learners) && (id in r.learnersNext <==> id in c.learnersNext)
               case Some(t) =>
                 match t
                 case AddNode => id in r.voters.incoming && id !in r.learners && id !in r.learnersNext
                 case RemoveNode => id !in r.voters.incoming && id !in r.learners && id !in r.learnersNext
                 case AddLearnerNode =>
                   && id !in r.voters.incoming
                   && if id in c.voters.outgoing then id in r.learnersNext else id in r.learners
    decreases |ccs|
  {
    if ccs != [] {
      var n := |ccs| - 1;
      EffectAllLast(c, ccs);
      LastChangeDecides(c, ccs[..n], id);
    }
  }

  // ----- through a joint configuration

  /** The joint configuration `j` is on the way to `c`: leaving it gives `c`. */
  predicate LeadsTo(j: Conf, c: Conf) {
    && j.voters.incoming == c.voters.incoming && c.voters.outgoing == {}
    && j.learners + j.learnersNext == c.learners && c.learnersNext == {}
  }

  lemma EffectLeadsTo(j: Conf, c: Conf, cc: ConfChangeSingle)
    requires LeadsTo(j, c)
    ensures LeadsTo(Effect(j, cc), Effect(c, cc)) && Effect(c, cc).autoLeave == c.autoLeave
  {
    var j', c' := Effect(j, cc), Effect(c, cc);
    assert j'.learners + j'.learnersNext == c'.learners;
  }

  lemma {:induction false} EffectsLeadTo(j: Conf, c: Conf, ccs: seq<ConfChangeSingle>)
    requires LeadsTo(j, c)
    ensures LeadsTo(EffectAll(j, ccs), EffectAll(c, ccs)) && EffectAll(c, ccs).autoLeave == c.autoLeave
    decreases |ccs|
  {
    hide Effect, LeadsTo;
    if ccs != [] {
      EffectLeadsTo(j, c, ccs[0]);
      EffectsLeadTo(Effect(j, ccs[0]), Effect(c, ccs[0]), ccs[1..]);
    }
  }

  /** Entering a joint configuration and leaving it again reaches exactly the configuration in which every
      change was made at once; until then the old voters decide too. */
  lemma JointReachesTarget(t: Tracker, autoLeave: bool, ccs: seq<ConfChangeSingle>, next: nat, t1: Tracker, next': nat, t2: Tracker)
    requires TrackerOk(t) && Accepted(t, Enter(autoLeave, ccs), next, t1) && Accepted(t1, Leave, next', t2)
    ensures t1.conf.voters.outgoing == t.conf.voters.incoming && t1.conf.autoLeave == autoLeave
    ensures t2.conf == EffectAll(t.conf, ccs)
    ensures t2.progress.Keys == Voters(t2.conf.voters) + t2.conf.learners
  {
    EnterJointExactly(t, autoLeave, ccs);
    assert LeadsTo(Doubled(t).conf, t.conf);
    EffectsLeadTo(Doubled(t).conf, t.conf, ccs);
    AcceptedKeepsOk(t, Enter(autoLeave, ccs), next, t1);
    AcceptedKeepsOk(t1, Leave, next', t2);
    hide EffectAll, EnterJoint, Checked, Removals, Replay;
    var changes :| LeavesBy(t1, changes, next', t2);
    assert t2.conf == Left(t1.conf);
  }

  /** A simple change reaches it in one step. */
  lemma SimpleReachesTarget(t: Tracker, ccs: seq<ConfChangeSingle>, next: nat, t': Tracker)
    requires TrackerOk(t) && Accepted(t, Plain(ccs), next, t')
    ensures t'.conf == EffectAll(t.conf, ccs)
    ensures t'.progress.Keys == Voters(t'.conf.voters) + t'.conf.learners
  {
    SimpleExactly(t, ccs);
    AcceptedKeepsOk(t, Plain(ccs), next, t');
    hide EffectAll, Simple, Replay;
  }

  // ----- progress

  /** The last recorded change of a peer, if any. */
  function LastRecorded(changes: seq<Change>, id: Id): Option<Change> {
    if changes == [] then None
    else if changes[|changes| - 1].id == id then Some(changes[|changes| - 1])
    else LastRecorded(changes[..|changes| - 1], id)
  }

  lemma {:induction false} LastRecordedFirst(changes: seq<Change>, id: Id)
    requires changes != []
    ensures LastRecorded(changes, id) ==
            if LastRecorded(changes[1..], id).Some? then LastRecorded(changes[1..], id)
            else if changes[0].id == id then Some(changes[0]) else None
    decreases |changes|
  {
    var n := |changes| - 1;
    if n > 0 && changes[n].id != id {
      LastRecordedFirst(changes[..n], id);
      assert changes[1..][..n - 1] == changes[..n][1..];
    }
  }

  /** A peer that was added last starts with nothing matched and the given next index; one that was removed last
      has no progress; any other keeps what it had. */
  lemma {:induction false} ReplayExactly(progress: map<Id, Progress>, changes: seq<Change>, next: nat, id: Id)
    ensures var r := Replay(progress, changes, next);
            match LastRecorded(changes, id)
            case None => (id in r <==> id in progress) && (id in r ==> r[id] == progress[id])
            case Some(Added(_)) => id in r && r[id] == Progress(0, next)
            case Some(Removed(_)) => id !in r
    decreases |changes|
  {
    if changes != [] {
      LastRecordedFirst(changes, id);
      match changes[0]
      case Added(x) => ReplayExactly(progress[x := Progress(0, next)], changes[1..], next, id);
      case Removed(x) => ReplayExactly(progress - {x}, changes[1..], next, id);
    }
  }
}
