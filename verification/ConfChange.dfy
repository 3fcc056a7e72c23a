/** Membership changes on values (raft-rs/src/confchange/changer.rs, raft-rs/src/tracker.rs). */
module ConfChange {
  import opened Types
  import opened Quorum

  // ----- configurations

  datatype Conf = Conf(voters: JointConfig, learners: set<Id>, learnersNext: set<Id>, autoLeave: bool)

  const EMPTY_CONF: Conf := Conf(JointConfig({}, {}), {}, {}, false)

  predicate Joint(c: Conf) {
    c.voters.outgoing != {}
  }

  /** How far a peer's log is known to match, and the next index to send it. */
  datatype Progress = Progress(matched: nat, next: nat)

  datatype Tracker = Tracker(progress: map<Id, Progress>, conf: Conf)

  // ----- the change log

  datatype Change = Added(id: Id) | Removed(id: Id)

  /** A copied configuration with the changes recorded against the progress map it was copied from. */
  datatype Draft = Draft(conf: Conf, base: set<Id>, changes: seq<Change>)

  /** `IncrChangeMap::contains`: the last recorded change of an id decides. */
  predicate Contains(base: set<Id>, changes: seq<Change>, id: Id) {
    if changes == [] then id in base
    else if changes[|changes| - 1].id == id then changes[|changes| - 1].Added?
    else Contains(base, changes[..|changes| - 1], id)
  }

  /** The progress map after the changes are replayed in order. */
  function Replay(progress: map<Id, Progress>, changes: seq<Change>, next: nat): map<Id, Progress>
    decreases |changes|
  {
    if changes == [] then progress
    else
      match changes[0]
      case Added(id) => Replay(progress[id := Progress(0, next)], changes[1..], next)
      case Removed(id) => Replay(progress - {id}, changes[1..], next)
  }

  lemma {:induction false} ContainsFirst(base: set<Id>, changes: seq<Change>, id: Id)
    requires changes != []
    ensures var base' := if changes[0].Added? then base + {changes[0].id} else base - {changes[0].id};
            Contains(base, changes, id) == Contains(base', changes[1..], id)
    decreases |changes|
  {
    var n := |changes| - 1;
    if n > 0 && changes[n].id != id {
      ContainsFirst(base, changes[..n], id);
      assert changes[1..][..n - 1] == changes[..n][1..];
    }
  }

  /** The lookup in the change log agrees with the map it is later replayed on. */
  lemma {:induction false} ContainsIsReplay(progress: map<Id, Progress>, changes: seq<Change>, next: nat, id: Id)
    ensures Contains(progress.Keys, changes, id) <==> id in Replay(progress, changes, next)
    decreases |changes|
  {
    if changes != [] {
      ContainsFirst(progress.Keys, changes, id);
      match changes[0]
      case Added(x) =>
        ContainsIsReplay(progress[x := Progress(0, next)], changes[1..], next, id);
        assert progress[x := Progress(0, next)].Keys == progress.Keys + {x};
      case Removed(x) =>
        ContainsIsReplay(progress - {x}, changes[1..], next, id);
        assert (progress - {x}).Keys == progress.Keys - {x};
    }
  }

  /** A peer without a recorded change keeps its progress. */
  lemma {:induction false} ReplayKeeps(progress: map<Id, Progress>, changes: seq<Change>, next: nat, id: Id)
    requires forall k :: 0 <= k < |changes| ==> changes[k].id != id
    ensures id in progress <==> id in Replay(progress, changes, next)
    ensures id in progress ==> Replay(progress, changes, next)[id] == progress[id]
    decreases |changes|
  {
    if changes != [] {
      assert changes[0].id != id;
      match changes[0]
      case Added(x) => ReplayKeeps(progress[x := Progress(0, next)], changes[1..], next, id);
      case Removed(x) => ReplayKeeps(progress - {x}, changes[1..], next, id);
    }
  }

  // ----- single changes

  datatype ChangeType = AddNode | RemoveNode | AddLearnerNode

  datatype ConfChangeSingle = ConfChangeSingle(ctype: ChangeType, id: Id)

  function Has(d: Draft, id: Id): bool {
    Contains(d.base, d.changes, id)
  }

  function InitProgress(d: Draft, id: Id, learner: bool): Draft {
    var c := d.conf;
    d.(conf := if learner then c.(learners := c.learners + {id})
               else c.(voters := c.voters.(incoming := c.voters.incoming + {id})),
       changes := d.changes + [Added(id)])
  }

  function MakeVoter(d: Draft, id: Id): Draft {
    if !Has(d, id) then InitProgress(d, id, false)
    else
      var c := d.conf;
      d.(conf := Conf(c.voters.(incoming := c.voters.incoming + {id}), c.learners - {id}, c.learnersNext - {id}, c.autoLeave))
  }

  function MakeLearner(d: Draft, id: Id): Draft {
    var c := d.conf;
    if !Has(d, id) then InitProgress(d, id, true)
    else if id in c.learners then d
    else
      var v := c.voters.(incoming := c.voters.incoming - {id});
      if id in v.outgoing then d.(conf := Conf(v, c.learners - {id}, (c.learnersNext - {id}) + {id}, c.autoLeave))
      else d.(conf := Conf(v, (c.learners - {id}) + {id}, c.learnersNext - {id}, c.autoLeave))
  }

  function Remove(d: Draft, id: Id): Draft {
    var c := d.conf;
    if !Has(d, id) then d
    else
      var c' := Conf(c.voters.(incoming := c.voters.incoming - {id}), c.learners - {id}, c.learnersNext - {id}, c.autoLeave);
      Draft(c', d.base, if id in c.voters.outgoing then d.changes else d.changes + [Removed(id)])
  }

  /** A zero id marks a change that was cancelled. */
  function ApplyOne(d: Draft, cc: ConfChangeSingle): Draft {
    if cc.id == NONE then d
    else
      match cc.ctype
      case AddNode => MakeVoter(d, cc.id)
      case AddLearnerNode => MakeLearner(d, cc.id)
      case RemoveNode => Remove(d, cc.id)
  }

  function ApplyAll(d: Draft, ccs: seq<ConfChangeSingle>): Draft
    decreases |ccs|
  {
    if ccs == [] then d else ApplyAll(ApplyOne(d, ccs[0]), ccs[1..])
  }

  // ----- the changer

  datatype ConfError =
    | AlreadyJoint | NotJoint | JointForSimple | ZeroVoters | RemovedAllVoters | MoreThanOneVoter | Inconsistent

  datatype Result<T> = Ok(value: T) | Err(error: ConfError)

  /** `check_invariants`: the checks the program makes before and after every change. */
  predicate Checked(d: Draft) {
    var c := d.conf;
    && (forall id :: id in Voters(c.voters) ==> Has(d, id))
    && (forall id :: id in c.learners ==> Has(d, id) && id !in c.voters.outgoing && id !in c.voters.incoming)
    && (forall id :: id in c.learnersNext ==> Has(d, id) && id in c.voters.outgoing)
    && (!Joint(c) ==> c.learnersNext == {} && !c.autoLeave)
  }

  function Copy(t: Tracker): Draft {
    Draft(t.conf, t.progress.Keys, [])
  }

  function EnterJoint(t: Tracker, autoLeave: bool, ccs: seq<ConfChangeSingle>): Result<(Conf, seq<Change>)> {
    var d := Copy(t);
    if Joint(t.conf) then Err(AlreadyJoint)
    else if !Checked(d) then Err(Inconsistent)
    else if d.conf.voters.incoming == {} then Err(ZeroVoters)
    else
      var d1 := ApplyAll(d.(conf := d.conf.(voters := d.conf.voters.(outgoing := d.conf.voters.outgoing + d.conf.voters.incoming))), ccs);
      if d1.conf.voters.incoming == {} then Err(RemovedAllVoters)
      else
        var d2 := d1.(conf := d1.conf.(autoLeave := autoLeave));
        if !Checked(d2) then Err(Inconsistent) else Ok((d2.conf, d2.changes))
  }

  /** The removals when leaving a joint configuration, in whatever order the outgoing voters are listed. */
  ghost predicate Removals(c: Conf, changes: seq<Change>) {
    && (forall k :: 0 <= k < |changes| ==> changes[k].Removed?)
    && (forall id :: Removed(id) in changes <==> id in c.voters.outgoing && id !in c.voters.incoming && id !in c.learners + c.learnersNext)
  }

  /** The configuration after leaving: staged learners become learners, the outgoing half goes. */
  function Left(c: Conf): Conf {
    Conf(c.voters.(outgoing := {}), c.learners + c.learnersNext, {}, false)
  }

  function Simple(t: Tracker, ccs: seq<ConfChangeSingle>): Result<(Conf, seq<Change>)> {
    var d := Copy(t);
    if Joint(t.conf) then Err(JointForSimple)
    else if !Checked(d) then Err(Inconsistent)
    else
      var d1 := ApplyAll(d, ccs);
      if d1.conf.voters.incoming == {} then Err(RemovedAllVoters)
      else if |Difference(d1.conf.voters.incoming, t.conf.voters.incoming)| > 1 then Err(MoreThanOneVoter)
      else if !Checked(d1) then Err(Inconsistent)
      else Ok((d1.conf, d1.changes))
  }

  function Difference(a: set<Id>, b: set<Id>): set<Id> {
    (a - b) + (b - a)
  }

  function ApplyConf(t: Tracker, conf: Conf, changes: seq<Change>, next: nat): Tracker {
    Tracker(Replay(t.progress, changes, next), conf)
  }

  // ----- the stronger invariant

  /** Exactly the voters and learners have a progress; learners are no voters; staged learners are
      outgoing voters that are not incoming ones. */
  predicate Fits(c: Conf, keys: set<Id>) {
    && keys == Voters(c.voters) + c.learners
    && c.learners !! Voters(c.voters)
    && c.learnersNext <= c.voters.outgoing
    && c.learnersNext !! c.voters.incoming
    && NONE !in keys
  }

  predicate TrackerOk(t: Tracker) {
    && Fits(t.conf, t.progress.Keys)
    && (!Joint(t.conf) ==> t.conf.learnersNext == {} && !t.conf.autoLeave)
    && (t.conf.voters.incoming == {} ==> t.conf == EMPTY_CONF)
  }

  /** A draft whose configuration fits the progress keys that its change log leaves. */
  ghost predicate DraftKeys(d: Draft, keys: set<Id>) {
    Fits(d.conf, keys) && forall id :: Has(d, id) <==> id in keys
  }

  /** What a change means for a configuration: the role the peer has afterwards. */
  function Effect(c: Conf, cc: ConfChangeSingle): Conf {
    var (id, v) := (cc.id, c.voters);
    if id == NONE then c
    else
      match cc.ctype
      case AddNode => Conf(v.(incoming := v.incoming + {id}), c.learners - {id}, c.learnersNext - {id}, c.autoLeave)
      case RemoveNode => Conf(v.(incoming := v.incoming - {id}), c.learners - {id}, c.learnersNext - {id}, c.autoLeave)
      case AddLearnerNode =>
        if id in v.outgoing then Conf(v.(incoming := v.incoming - {id}), c.learners, c.learnersNext + {id}, c.autoLeave)
        else Conf(v.(incoming := v.incoming - {id}), c.learners + {id}, c.learnersNext, c.autoLeave)
  }

  function EffectAll(c: Conf, ccs: seq<ConfChangeSingle>): Conf
    decreases |ccs|
  {
    if ccs == [] then c else EffectAll(Effect(c, ccs[0]), ccs[1..])
  }

  lemma HasAfter(d: Draft, d': Draft, x: Change, id: Id)
    requires d'.base == d.base && d'.changes == d.changes + [x]
    ensures Has(d', id) == if x.id == id then x.Added? else Has(d, id)
  {
    assert d'.changes[..|d.changes|] == d.changes;
  }

  /** Every change keeps the invariant and has the effect it stands for, whether or not the peer was known. */
  lemma ApplyOneOk(d: Draft, cc: ConfChangeSingle, keys: set<Id>) returns (keys': set<Id>)
    requires DraftKeys(d, keys)
    ensures DraftKeys(ApplyOne(d, cc), keys') && ApplyOne(d, cc).conf == Effect(d.conf, cc)
    ensures ApplyOne(d, cc).base == d.base
    ensures ApplyOne(d, cc).conf.voters.outgoing == d.conf.voters.outgoing && ApplyOne(d, cc).conf.autoLeave == d.conf.autoLeave
  {
    var d' := ApplyOne(d, cc);
    var c' := d'.conf;
    keys' := Voters(c'.voters) + c'.learners;
    ApplyOneKeys(d, cc, keys);
    if |d'.changes| != |d.changes| {
      var x := d'.changes[|d.changes|];
      forall id ensures Has(d', id) == if x.id == id then x.Added? else Has(d, id) {
        HasAfter(d, d', x, id);
      }
    }
    hide Contains;
    assert Has(d, cc.id) <==> cc.id in keys;
    ApplyOneEffect(d, cc, keys);
  }

  lemma ApplyOneEffect(d: Draft, cc: ConfChangeSingle, keys: set<Id>)
    requires DraftKeys(d, keys)
    ensures ApplyOne(d, cc).conf == Effect(d.conf, cc)
  {
    hide Contains;
    assert Has(d, cc.id) <==> cc.id in keys;
  }

  lemma ApplyOneKeys(d: Draft, cc: ConfChangeSingle, keys: set<Id>)
    requires DraftKeys(d, keys)
    ensures var d' := ApplyOne(d, cc);
            var keys' := Voters(d'.conf.voters) + d'.conf.learners;
            && Fits(d'.conf, keys')
            && d'.base == d.base
            && |d.changes| <= |d'.changes| <= |d.changes| + 1
            && (if |d'.changes| == |d.changes| then d'.changes == d.changes && keys' == keys
                else
                  && d'.changes == d.changes + [d'.changes[|d.changes|]]
                  && d'.changes[|d.changes|].id == cc.id
                  && keys' == if d'.changes[|d.changes|].Added? then keys + {cc.id} else keys - {cc.id})
  {
    hide Contains;
    assert Has(d, cc.id) <==> cc.id in keys;
  }

  lemma {:induction false} ApplyAllOk(d: Draft, ccs: seq<ConfChangeSingle>, keys: set<Id>) returns (keys': set<Id>)
    requires DraftKeys(d, keys)
    ensures DraftKeys(ApplyAll(d, ccs), keys') && ApplyAll(d, ccs).conf == EffectAll(d.conf, ccs)
    ensures ApplyAll(d, ccs).base == d.base
    ensures ApplyAll(d, ccs).conf.voters.outgoing == d.conf.voters.outgoing && ApplyAll(d, ccs).conf.autoLeave == d.conf.autoLeave
    decreases |ccs|
  {
    hide DraftKeys, ApplyOne, Effect;
    keys' := keys;
    if ccs != [] {
      var k := ApplyOneOk(d, ccs[0], keys);
      keys' := ApplyAllOk(ApplyOne(d, ccs[0]), ccs[1..], k);
    }
  }

  lemma CopyOk(t: Tracker)
    requires TrackerOk(t)
    ensures DraftKeys(Copy(t), t.progress.Keys) && Checked(Copy(t))
  {
  }

  lemma DraftChecked(d: Draft, keys: set<Id>)
    requires DraftKeys(d, keys) && (!Joint(d.conf) ==> d.conf.learnersNext == {} && !d.conf.autoLeave)
    ensures Checked(d)
  {
  }

  /** Replaying a draft's changes gives a tracker that fits its configuration. */
  lemma DraftApplied(t: Tracker, d: Draft, keys: set<Id>, next: nat)
    requires DraftKeys(d, keys) && d.base == t.progress.Keys
    ensures Fits(d.conf, ApplyConf(t, d.conf, d.changes, next).progress.Keys)
  {
    var t' := ApplyConf(t, d.conf, d.changes, next);
    forall id ensures id in t'.progress.Keys <==> id in keys {
      ContainsIsReplay(t.progress, d.changes, next, id);
    }
    assert t'.progress.Keys == keys;
  }

  // ----- what a membership change may do

  datatype Request = Enter(autoLeave: bool, ccs: seq<ConfChangeSingle>) | Leave | Plain(ccs: seq<ConfChangeSingle>)

  /** The change is accepted and leads to the tracker `t'`. */
  ghost predicate Accepted(t: Tracker, q: Request, next: nat, t': Tracker) {
    match q
    case Enter(autoLeave, ccs) =>
      var r := EnterJoint(t, autoLeave, ccs);
      r.Ok? && t' == ApplyConf(t, r.value.0, r.value.1, next)
    case Plain(ccs) =>
      var r := Simple(t, ccs);
      r.Ok? && t' == ApplyConf(t, r.value.0, r.value.1, next)
    case Leave =>
      Joint(t.conf) && Checked(Copy(t)) && exists changes :: LeavesBy(t, changes, next, t')
  }

  ghost predicate LeavesBy(t: Tracker, changes: seq<Change>, next: nat, t': Tracker) {
    && Removals(t.conf, changes)
    && Checked(Draft(Left(t.conf), t.progress.Keys, changes))
    && t' == ApplyConf(t, Left(t.conf), changes, next)
  }

  /** The draft that entering a joint configuration starts from. */
  function Doubled(t: Tracker): Draft {
    var c := t.conf;
    Copy(t).(conf := c.(voters := c.voters.(outgoing := c.voters.outgoing + c.voters.incoming)))
  }

  lemma DoubledOk(t: Tracker)
    requires TrackerOk(t) && !Joint(t.conf)
    ensures DraftKeys(Doubled(t), t.progress.Keys)
  {
    CopyOk(t);
    hide Contains;
  }

  /** Entering a joint configuration fails exactly for its three explicit reasons. */
  lemma EnterJointExactly(t: Tracker, autoLeave: bool, ccs: seq<ConfChangeSingle>)
    requires TrackerOk(t)
    ensures var r := EnterJoint(t, autoLeave, ccs);
            var c := EffectAll(Doubled(t).conf, ccs);
            && (r == Err(AlreadyJoint) <==> Joint(t.conf))
            && (r == Err(ZeroVoters) <==> !Joint(t.conf) && t.conf.voters.incoming == {})
            && (r == Err(RemovedAllVoters) <==> !Joint(t.conf) && t.conf.voters.incoming != {} && c.voters.incoming == {})
            && (r.Ok? <==> !Joint(t.conf) && t.conf.voters.incoming != {} && c.voters.incoming != {})
            && (r.Ok? ==> r.value == (c.(autoLeave := autoLeave), ApplyAll(Doubled(t), ccs).changes))
            && (r.Ok? ==> c.voters.outgoing == t.conf.voters.incoming)
  {
    hide ApplyAll, EffectAll, Checked, DraftKeys;
    CopyOk(t);
    if !Joint(t.conf) {
      DoubledOk(t);
      var keys := ApplyAllOk(Doubled(t), ccs, t.progress.Keys);
      if t.conf.voters.incoming != {} {
        JointChecked(ApplyAll(Doubled(t), ccs), autoLeave, keys);
      }
    }
  }

  lemma JointChecked(d: Draft, autoLeave: bool, keys: set<Id>)
    requires DraftKeys(d, keys) && Joint(d.conf)
    ensures Checked(d.(conf := d.conf.(autoLeave := autoLeave))) && DraftKeys(d.(conf := d.conf.(autoLeave := autoLeave)), keys)
  {
    hide Contains;
  }

  /** A simple change fails exactly for its three explicit reasons. */
  lemma SimpleExactly(t: Tracker, ccs: seq<ConfChangeSingle>)
    requires TrackerOk(t)
    ensures var r := Simple(t, ccs);
            var c := EffectAll(t.conf, ccs);
            && (r == Err(JointForSimple) <==> Joint(t.conf))
            && (r == Err(RemovedAllVoters) <==> !Joint(t.conf) && c.voters.incoming == {})
            && (r == Err(MoreThanOneVoter) <==>
                  !Joint(t.conf) && c.voters.incoming != {} && |Difference(c.voters.incoming, t.conf.voters.incoming)| > 1)
            && (r.Ok? <==> !Joint(t.conf) && c.voters.incoming != {} && |Difference(c.voters.incoming, t.conf.voters.incoming)| <= 1)
            && (r.Ok? ==> r.value == (c, ApplyAll(Copy(t), ccs).changes) && c.voters.outgoing == {})
  {
    hide ApplyAll, EffectAll, Checked, DraftKeys, Difference;
    CopyOk(t);
    if !Joint(t.conf) {
      var keys := ApplyAllOk(Copy(t), ccs, t.progress.Keys);
      PlainChecked(ApplyAll(Copy(t), ccs), keys);
    }
  }

  lemma PlainChecked(d: Draft, keys: set<Id>)
    requires DraftKeys(d, keys) && !Joint(d.conf) && !d.conf.autoLeave
    ensures Checked(d) && d.conf.learnersNext == {}
  {
    hide Contains;
  }

  lemma {:induction false} ContainsRemoved(base: set<Id>, changes: seq<Change>, id: Id)
    requires forall k :: 0 <= k < |changes| ==> changes[k].Removed?
    ensures Contains(base, changes, id) <==> id in base && Removed(id) !in changes
  {
    if changes != [] {
      var n := |changes| - 1;
      ContainsRemoved(base, changes[..n], id);
      assert changes == changes[..n] + [changes[n]];
    }
  }

  /** Leaving a joint configuration fails only when it is not joint. */
  lemma LeaveKeeps(t: Tracker, changes: seq<Change>)
    requires TrackerOk(t) && Joint(t.conf) && Removals(t.conf, changes)
    ensures var d := Draft(Left(t.conf), t.progress.Keys, changes);
            Checked(Copy(t)) && DraftKeys(d, Voters(d.conf.voters) + d.conf.learners) && Checked(d)
  {
    CopyOk(t);
    var d := Draft(Left(t.conf), t.progress.Keys, changes);
    var keys := Voters(d.conf.voters) + d.conf.learners;
    forall id ensures Has(d, id) <==> id in keys {
      ContainsRemoved(t.progress.Keys, changes, id);
    }
    DraftChecked(d, keys);
  }

  /** Every accepted change keeps the stronger invariant. */
  lemma AcceptedKeepsOk(t: Tracker, q: Request, next: nat, t': Tracker)
    requires TrackerOk(t) && Accepted(t, q, next, t')
    ensures TrackerOk(t')
  {
    hide ApplyAll, EffectAll, Checked, DraftKeys, Replay;
    match q
    case Enter(autoLeave, ccs) =>
      EnterJointExactly(t, autoLeave, ccs);
      DoubledOk(t);
      var keys := ApplyAllOk(Doubled(t), ccs, t.progress.Keys);
      var d := ApplyAll(Doubled(t), ccs);
      JointChecked(d, autoLeave, keys);
      DraftApplied(t, d.(conf := d.conf.(autoLeave := autoLeave)), keys, next);
    case Plain(ccs) =>
      SimpleExactly(t, ccs);
      CopyOk(t);
      var keys := ApplyAllOk(Copy(t), ccs, t.progress.Keys);
      PlainChecked(ApplyAll(Copy(t), ccs), keys);
      DraftApplied(t, ApplyAll(Copy(t), ccs), keys, next);
    case Leave =>
      var changes :| LeavesBy(t, changes, next, t');
      LeaveKeeps(t, changes);
      var d := Draft(Left(t.conf), t.progress.Keys, changes);
      DraftApplied(t, d, Voters(d.conf.voters) + d.conf.learners, next);
  }

  /** A run of accepted changes from the empty tracker. */
  ghost predicate IsHistory(ts: seq<Tracker>, qs: seq<Request>, nexts: seq<nat>) {
    && |ts| == |qs| + 1 == |nexts| + 1
    && ts[0] == Tracker(map[], EMPTY_CONF)
    && forall i :: 0 <= i < |qs| ==> Accepted(ts[i], qs[i], nexts[i], ts[i + 1])
  }

  /** In every reachable tracker the progress keys are exactly the voters and learners, which are disjoint. */
  lemma {:induction false} ReachableOk(ts: seq<Tracker>, qs: seq<Request>, nexts: seq<nat>, i: nat)
    requires IsHistory(ts, qs, nexts) && i < |ts|
    ensures TrackerOk(ts[i])
  {
    hide Accepted;
    if i > 0 {
      ReachableOk(ts, qs, nexts, i - 1);
      assert Accepted(ts[i - 1], qs[i - 1], nexts[i - 1], ts[i]);
      hide TrackerOk;
      AcceptedKeepsOk(ts[i - 1], qs[i - 1], nexts[i - 1], ts[i]);
    }
  }

  /** In every reachable tracker `check_invariants` rejects nothing, before or after a change. */
  lemma NeverInconsistent(ts: seq<Tracker>, qs: seq<Request>, nexts: seq<nat>, i: nat, autoLeave: bool, ccs: seq<ConfChangeSingle>)
    requires IsHistory(ts, qs, nexts) && i < |ts|
    ensures Checked(Copy(ts[i]))
    ensures EnterJoint(ts[i], autoLeave, ccs) != Err(Inconsistent) && Simple(ts[i], ccs) != Err(Inconsistent)
    ensures forall changes :: Joint(ts[i].conf) && Removals(ts[i].conf, changes) ==>
              Checked(Draft(Left(ts[i].conf), ts[i].progress.Keys, changes))
  {
    hide EnterJoint, Simple, Checked, Removals, Accepted;
    var t := ts[i];
    ReachableOk(ts, qs, nexts, i);
    CopyOk(t);
    EnterJointExactly(t, autoLeave, ccs);
    SimpleExactly(t, ccs);
    forall changes | Joint(t.conf) && Removals(t.conf, changes)
      ensures Checked(Draft(Left(t.conf), t.progress.Keys, changes))
    {
      LeaveKeeps(t, changes);
    }
  }

  // ----- quorums overlap across a change

  lemma DifferenceSizes(a: set<Id>, b: set<Id>)
    requires |Difference(a, b)| <= 1
    ensures |a + b| <= |a| + 1 && |a + b| <= |b| + 1 && (|a + b| == |a| || |a + b| == |b|)
  {
    assert a + b == a + (b - a) && a + b == b + (a - b);
    assert |Difference(a, b)| == |a - b| + |b - a|;
  }

  /** Majorities of two sets of voters that differ by at most one share a voter. */
  lemma NeighboursMeet(a: set<Id>, b: set<Id>, x: set<Id>, y: set<Id>)
    requires a != {} && b != {} && |Difference(a, b)| <= 1
    requires HasMajority(a, x) && HasMajority(b, y)
    ensures x * y != {}
  {
    DifferenceSizes(a, b);
    var p, q := a * x, b * y;
    if p * q == {} {
      assert |p + q| == |p| + |q|;
      SubsetSize(p + q, a + b);
      assert false;
    }
    var v :| v in p * q;
    assert v in x * y;
  }

  /** Across every accepted change from a configuration with a voter, any vote set that wins before it
      and any that wins after it share a member. */
  lemma QuorumsOverlapAcross(t: Tracker, q: Request, next: nat, t': Tracker, before: set<Id>, after: set<Id>)
    requires TrackerOk(t) && Accepted(t, q, next, t') && t.conf.voters.incoming != {}
    requires IsQuorum(t.conf.voters, before) && IsQuorum(t'.conf.voters, after)
    ensures before * after != {}
  {
    hide ApplyAll, EffectAll, Checked, TrackerOk;
    var v, v' := t.conf.voters, t'.conf.voters;
    match q
    case Enter(autoLeave, ccs) =>
      EnterJointExactly(t, autoLeave, ccs);
      assert v'.outgoing == v.incoming;
      MajoritiesMeet(v.incoming, before, after);
      var w :| w in v.incoming && w in before && w in after;
      assert w in before * after;
    case Plain(ccs) =>
      SimpleExactly(t, ccs);
      assert Difference(v'.incoming, v.incoming) == Difference(v.incoming, v'.incoming);
      NeighboursMeet(v.incoming, v'.incoming, before, after);
    case Leave =>
      assert v'.incoming == v.incoming;
      MajoritiesMeet(v.incoming, before, after);
      var w :| w in v.incoming && w in before && w in after;
      assert w in before * after;
  }

  /** The same for votes as they are recorded: two elections, one on each side of a change, cannot both
      be won without a common voter. */
  lemma WinnersOverlapAcross(t: Tracker, q: Request, next: nat, t': Tracker, before: Votes, after: Votes)
    requires TrackerOk(t) && Accepted(t, q, next, t') && t.conf.voters.incoming != {}
    requires JointVote(t.conf.voters, before) == Won && JointVote(t'.conf.voters, after) == Won
    ensures exists v :: v in before && before[v] && v in after && after[v]
  {
    hide TrackerOk, Accepted, JointVote;
    WonIsQuorum(t.conf.voters, before);
    WonIsQuorum(t'.conf.voters, after);
    var x, y := Yes(Voters(t.conf.voters), before), Yes(Voters(t'.conf.voters), after);
    QuorumsOverlapAcross(t, q, next, t', x, y);
    var v :| v in x * y;
    assert v in before && before[v] && v in after && after[v];
  }
}
