/** The changer, the tracker and the restore loop as they update sets and maps in place. */
module ConfClasses {
  import opened Types
  import opened Quorum
  import opened ConfChange
  import opened Restore

  /** The configuration being built, with the change log against the tracker's progress keys. */
  class Changer {
    const base: set<Id>
    var incoming: set<Id>
    var outgoing: set<Id>
    var learners: set<Id>
    var learnersNext: set<Id>
    var autoLeave: bool
    var changes: seq<Change>

    function State(): Draft
      reads this
    {
      Draft(Conf(JointConfig(incoming, outgoing), learners, learnersNext, autoLeave), base, changes)
    }

    constructor (t: Tracker)
      ensures State() == Copy(t)
    {
      base := t.progress.Keys;
      incoming, outgoing := t.conf.voters.incoming, t.conf.voters.outgoing;
      learners, learnersNext, autoLeave := t.conf.learners, t.conf.learnersNext, t.conf.autoLeave;
      changes := [];
    }

    /** Searches the change log from its end. */
    method Contains(id: Id) returns (r: bool)
      ensures r == Has(State(), id)
    {
      var n := |changes|;
      assert changes[..n] == changes;
      while n > 0
        invariant 0 <= n <= |changes|
        invariant Has(State(), id) == ConfChange.Contains(base, changes[..n], id)
      {
        assert changes[..n][..n - 1] == changes[..n - 1];
        if changes[n - 1].id == id {
          return changes[n - 1].Added?;
        }
        n := n - 1;
      }
      r := id in base;
    }

    method InitProgress(id: Id, learner: bool)
      modifies this
      ensures State() == ConfChange.InitProgress(old(State()), id, learner)
    {
      if !learner {
        incoming := incoming + {id};
      } else {
        learners := learners + {id};
      }
      changes := changes + [Added(id)];
    }

    method MakeVoter(id: Id)
      modifies this
      ensures State() == ConfChange.MakeVoter(old(State()), id)
    {
      var known := Contains(id);
      if !known {
        InitProgress(id, false);
        return;
      }
      incoming := incoming + {id};
      learners := learners - {id};
      learnersNext := learnersNext - {id};
    }

    method MakeLearner(id: Id)
      modifies this
      ensures State() == ConfChange.MakeLearner(old(State()), id)
    {
      var known := Contains(id);
      if !known {
        InitProgress(id, true);
        return;
      }
      if id in learners {
        return;
      }
      incoming := incoming - {id};
      learners := learners - {id};
      learnersNext := learnersNext - {id};
      if id in outgoing {
        learnersNext := learnersNext + {id};
      } else {
        learners := learners + {id};
      }
    }

    method Remove(id: Id)
      modifies this
      ensures State() == ConfChange.Remove(old(State()), id)
    {
      var known := Contains(id);
      if !known {
        return;
      }
      incoming := incoming - {id};
      learners := learners - {id};
      learnersNext := learnersNext - {id};
      if id !in outgoing {
        changes := changes + [Removed(id)];
      }
    }

    method Apply(ccs: seq<ConfChangeSingle>) returns (ok: bool)
      modifies this
      ensures State() == ApplyAll(old(State()), ccs)
      ensures ok == (State().conf.voters.incoming != {})
    {
      ghost var d := State();
      assert ccs[0..] == ccs;
      for i := 0 to |ccs|
        invariant ApplyAll(d, ccs) == ApplyAll(State(), ccs[i..])
      {
        assert ccs[i..][1..] == ccs[i + 1..];
        if ccs[i].id != NONE {
          match ccs[i].ctype {
            case AddNode => MakeVoter(ccs[i].id);
            case AddLearnerNode => MakeLearner(ccs[i].id);
            case RemoveNode => Remove(ccs[i].id);
          }
        }
      }
      ok := incoming != {};
    }

    /** Drops the outgoing half; its voters that have no other role lose their progress. */
    method Leave()
      modifies this
      requires changes == []
      ensures State().conf == Left(old(State()).conf) && Removals(old(State()).conf, changes)
    {
      ghost var c := State().conf;
      learners, learnersNext := learners + learnersNext, {};
      var rest := outgoing;
      while rest != {}
        invariant rest <= outgoing
        invariant State().conf == c.(learners := c.learners + c.learnersNext, learnersNext := {})
        invariant forall k :: 0 <= k < |changes| ==> changes[k].Removed?
        invariant forall id :: Removed(id) in changes <==> id in outgoing - rest && id !in incoming && id !in learners
        decreases |rest|
      {
        var id :| id in rest;
        if id !in incoming && id !in learners {
          changes := changes + [Removed(id)];
        }
        rest := rest - {id};
      }
      outgoing, autoLeave := {}, false;
    }
  }

  class ProgressTracker {
    var progress: map<Id, Progress>
    var conf: Conf
    var votes: Votes

    function State(): Tracker
      reads this
    {
      Tracker(progress, conf)
    }

    constructor ()
      ensures State() == EMPTY_TRACKER && votes == map[]
    {
      progress, conf, votes := map[], EMPTY_CONF, map[];
    }

    method EnterJoint(autoLeave: bool, ccs: seq<ConfChangeSingle>) returns (r: ConfChange.Result<(Conf, seq<Change>)>)
      ensures r == ConfChange.EnterJoint(State(), autoLeave, ccs)
    {
      if Joint(conf) {
        return Err(AlreadyJoint);
      }
      var ch := new Changer(State());
      if !Checked(ch.State()) {
        return Err(Inconsistent);
      }
      if ch.incoming == {} {
        return Err(ZeroVoters);
      }
      ch.outgoing := ch.outgoing + ch.incoming;
      var ok := ch.Apply(ccs);
      if !ok {
        return Err(RemovedAllVoters);
      }
      ch.autoLeave := autoLeave;
      if !Checked(ch.State()) {
        return Err(Inconsistent);
      }
      r := Ok((ch.State().conf, ch.changes));
    }

    method LeaveJoint() returns (r: ConfChange.Result<(Conf, seq<Change>)>)
      ensures !Joint(conf) ==> r == Err(NotJoint)
      ensures r.Ok? ==> r.value.0 == Left(conf) && Removals(conf, r.value.1)
      ensures TrackerOk(State()) && Joint(conf) ==> r.Ok? && r.value.0 == Left(conf) && Removals(conf, r.value.1)
    {
      if !Joint(conf) {
        return Err(NotJoint);
      }
      var ch := new Changer(State());
      if !Checked(ch.State()) {
        CheckedIfOk(State());
        return Err(Inconsistent);
      }
      ch.Leave();
      LeaveChecked(State(), ch.changes);
      if !Checked(ch.State()) {
        return Err(Inconsistent);
      }
      r := Ok((ch.State().conf, ch.changes));
    }

    method Simple(ccs: seq<ConfChangeSingle>) returns (r: ConfChange.Result<(Conf, seq<Change>)>)
      ensures r == ConfChange.Simple(State(), ccs)
    {
      if Joint(conf) {
        return Err(JointForSimple);
      }
      var ch := new Changer(State());
      if !Checked(ch.State()) {
        return Err(Inconsistent);
      }
      var ok := ch.Apply(ccs);
      if !ok {
        return Err(RemovedAllVoters);
      }
      if |Difference(ch.incoming, conf.voters.incoming)| > 1 {
        return Err(MoreThanOneVoter);
      }
      if !Checked(ch.State()) {
        return Err(Inconsistent);
      }
      r := Ok((ch.State().conf, ch.changes));
    }

    /** Replays the change log on the progress map. */
    method ApplyConf(conf: Conf, changes: seq<Change>, next: nat)
      modifies this
      ensures State() == ConfChange.ApplyConf(old(State()), conf, changes, next) && votes == old(votes)
    {
      this.conf := conf;
      assert changes[0..] == changes;
      for i := 0 to |changes|
        invariant this.conf == conf && votes == old(votes)
        invariant Replay(old(progress), changes, next) == Replay(progress, changes[i..], next)
      {
        assert changes[i..][1..] == changes[i + 1..];
        match changes[i] {
          case Added(id) => progress := progress[id := Progress(0, next)];
          case Removed(id) => progress := progress - {id};
        }
      }
    }

    method ResetVotes()
      modifies this
      ensures State() == old(State()) && votes == map[]
    {
      votes := map[];
    }

    method RecordVote(id: Id, vote: bool)
      modifies this
      ensures State() == old(State()) && votes == Quorum.RecordVote(old(votes), id, vote)
    {
      if id !in votes {
        votes := votes[id := vote];
      }
    }

    /** Granted and rejected votes of current voters, and the outcome. */
    method TallyVotes() returns (granted: nat, rejected: nat, result: VoteResult)
      ensures granted == |Yes(Voters(conf.voters), votes)|
      ensures granted + rejected == |Voters(conf.voters) * votes.Keys|
      ensures result == JointVote(conf.voters, votes)
    {
      granted, rejected := 0, 0;
      var rest := votes.Keys;
      while rest != {}
        invariant rest <= votes.Keys
        invariant granted == |Yes(Voters(conf.voters) - rest, votes)|
        invariant granted + rejected == |Voters(conf.voters) * (votes.Keys - rest)|
        decreases |rest|
      {
        var id :| id in rest;
        TallyOne(Voters(conf.voters), votes, rest, id);
        if id in Voters(conf.voters) {
          if votes[id] {
            granted := granted + 1;
          } else {
            rejected := rejected + 1;
          }
        }
        rest := rest - {id};
      }
      assert Voters(conf.voters) - rest == Voters(conf.voters) && votes.Keys - rest == votes.Keys;
      result := CountJoint(conf.voters, votes);
    }
  }

  lemma TallyOne(voters: set<Id>, votes: Votes, rest: set<Id>, id: Id)
    requires id in rest && rest <= votes.Keys
    ensures |Yes(voters - (rest - {id}), votes)| == |Yes(voters - rest, votes)| + if id in voters && votes[id] then 1 else 0
    ensures |voters * (votes.Keys - (rest - {id}))| == |voters * (votes.Keys - rest)| + if id in voters then 1 else 0
  {
    if id in voters {
      CountOne(voters - rest, id, votes);
      assert voters - (rest - {id}) == (voters - rest) + {id};
      assert voters * (votes.Keys - (rest - {id})) == voters * (votes.Keys - rest) + {id};
    } else {
      assert voters - (rest - {id}) == voters - rest;
      assert voters * (votes.Keys - (rest - {id})) == voters * (votes.Keys - rest);
    }
  }

  lemma CheckedIfOk(t: Tracker)
    ensures TrackerOk(t) ==> Checked(Copy(t))
  {
    if TrackerOk(t) {
      CopyOk(t);
    }
  }

  lemma LeaveChecked(t: Tracker, changes: seq<Change>)
    requires Joint(t.conf) && Removals(t.conf, changes)
    ensures TrackerOk(t) ==> Checked(Draft(Left(t.conf), t.progress.Keys, changes))
  {
    if TrackerOk(t) {
      LeaveKeeps(t, changes);
    }
  }

  /** The changes of one type for a list of ids. */
  method PushAll(ctype: ChangeType, ids: seq<Id>, start: seq<ConfChangeSingle>) returns (ccs: seq<ConfChangeSingle>)
    ensures ccs == start + Changes(ctype, ids)
  {
    ccs := start;
    assert ids[0..] == ids;
    for i := 0 to |ids|
      invariant start + Changes(ctype, ids) == ccs + Changes(ctype, ids[i..])
    {
      assert ids[i..][1..] == ids[i + 1..];
      assert Changes(ctype, ids[i..]) == [ConfChangeSingle(ctype, ids[i])] + Changes(ctype, ids[i + 1..]);
      ccs := ccs + [ConfChangeSingle(ctype, ids[i])];
    }
  }

  method BuildChanges(cs: ConfState) returns (outgoing: seq<ConfChangeSingle>, incoming: seq<ConfChangeSingle>)
    ensures (outgoing, incoming) == ToConfChangeSingle(cs)
  {
    outgoing := PushAll(AddNode, cs.votersOutgoing, []);
    incoming := PushAll(RemoveNode, cs.votersOutgoing, []);
    incoming := PushAll(AddNode, cs.voters, incoming);
    incoming := PushAll(AddLearnerNode, cs.learners, incoming);
    incoming := PushAll(AddLearnerNode, cs.learnersNext, incoming);
    Reassociate(Changes(RemoveNode, cs.votersOutgoing), Changes(AddNode, cs.voters),
                Changes(AddLearnerNode, cs.learners), Changes(AddLearnerNode, cs.learnersNext));
    Reassociate(Changes(AddNode, cs.votersOutgoing), [], [], []);
  }

  lemma Reassociate<T>(a: seq<T>, b: seq<T>, c: seq<T>, d: seq<T>)
    ensures [] + a + b + c + d == a + (b + (c + d))
    ensures [] + a == a
  {
  }

  /** Applies simple changes one after the other; stops at the first that fails. */
  method ApplyEach(t: ProgressTracker, ccs: seq<ConfChangeSingle>, next: nat) returns (error: Option<ConfError>)
    modifies t
    ensures var r := SimpleEach(old(t.State()), ccs, next);
            if r.Ok? then error == None && t.State() == r.value else error == Some(r.error)
  {
    assert ccs[0..] == ccs;
    for i := 0 to |ccs|
      invariant SimpleEach(old(t.State()), ccs, next) == SimpleEach(t.State(), ccs[i..], next)
    {
      assert ccs[i..][1..] == ccs[i + 1..];
      var r := t.Simple([ccs[i]]);
      if r.Err? {
        return Some(r.error);
      }
      t.ApplyConf(r.value.0, r.value.1, next);
    }
    error := None;
  }

  /** Rebuilds a configuration on a tracker; what it does on an empty one is `RestoreRoundTrip`. */
  method RestoreTracker(t: ProgressTracker, next: nat, cs: ConfState) returns (error: Option<ConfError>)
    modifies t
    ensures var r := Restored(old(t.State()), next, cs);
            if r.Ok? then error == None && t.State() == r.value else error == Some(r.error)
  {
    var outgoing, incoming := BuildChanges(cs);
    if outgoing == [] {
      error := ApplyEach(t, incoming, next);
    } else {
      error := ApplyEach(t, outgoing, next);
      if error == None {
        var r := t.EnterJoint(cs.autoLeave, incoming);
        if r.Err? {
          return Some(r.error);
        }
        t.ApplyConf(r.value.0, r.value.1, next);
      }
    }
  }
}
