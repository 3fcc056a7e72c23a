/** The node's ready pipeline as the object that it updates in place (raft-rs/src/raw_node.rs). */
module RawNodeClass {
  import opened Types
  import opened LogModel
  import opened LogRuns
  import opened LogClasses
  import opened Pipeline
  import opened Screening
  import opened PipelineRuns
  import opened PipelineKeeps
  import opened PipelineEvents
  import opened ReadyEvents

  class RawNode {
    const limits: Limits
    const log: RaftLog
    var term: nat
    var vote: Id
    var leader: bool
    var uncommitted: nat
    var tailIndex: nat
    var pendingConf: nat
    var prevLeader: bool
    var prevHard: Hard
    var maxNumber: nat
    var records: seq<Record>
    var since: nat

    ghost function State(): Raw
      reads this, log, log.store, log.tail
    {
      Raw(log.State(), term, vote, leader, uncommitted, tailIndex, pendingConf, prevLeader, prevHard, maxNumber, records, since)
    }

    ghost predicate Valid()
      reads this, log, log.store, log.tail
    {
      log.Valid()
    }

    /** Starts from a store whose applied index is `applied`. */
    constructor (limits: Limits, log: RaftLog, hard: Hard, applied: nat)
      requires log.Valid() && hard.commit == log.committed
      ensures Valid() && this.log == log && this.limits == limits
      ensures State() == Raw(log.State(), hard.term, hard.vote, false, 0, 0, 0, false, hard, 0, [], applied)
    {
      this.limits, this.log := limits, log;
      term, vote, leader := hard.term, hard.vote, false;
      uncommitted, tailIndex, pendingConf := 0, 0, 0;
      prevLeader, prevHard, maxNumber, records, since := false, hard, 0, [], applied;
    }

    // ----- proposals

    /** The data of the entries, added up. */
    static method SumData(ents: seq<Entry>) returns (size: nat)
      ensures size == DataSize(ents)
    {
      size := 0;
      assert ents[0..] == ents;
      for i := 0 to |ents|
        invariant DataSize(ents) == size + DataSize(ents[i..])
      {
        assert ents[i..][1..] == ents[i + 1..];
        size := size + |ents[i].data|;
      }
    }

    method MaybeIncrease(ents: seq<Entry>) returns (ok: bool)
      modifies this`uncommitted
      ensures var o := Increase(limits, old(State()), ents);
              ok == o.Some? && State() == if o.Some? then o.value else old(State())
    {
      if limits.maxUncommitted == NO_LIMIT {
        return true;
      }
      var size := SumData(ents);
      ok := size == 0 || uncommitted == 0 || size + uncommitted <= limits.maxUncommitted;
      if ok {
        uncommitted := uncommitted + size;
      }
    }

    /** Counts only entries behind the tail the leader was elected with. */
    method ReduceUncommitted(ents: seq<Entry>)
      requires Reduce(limits, State(), ents).Some?
      modifies this`uncommitted
      ensures Reduce(limits, old(State()), ents) == Some(State())
    {
      if !leader || limits.maxUncommitted == NO_LIMIT || ents == [] {
        return;
      }
      var i := 0;
      assert ents[0..] == ents;
      while i < |ents| && ents[i].index <= tailIndex
        invariant 0 <= i <= |ents|
        invariant SkipTo(ents, tailIndex) == SkipTo(ents[i..], tailIndex)
      {
        assert ents[i..][1..] == ents[i + 1..];
        i := i + 1;
      }
      var size := SumData(ents[i..]);
      uncommitted := uncommitted - size;
    }

    method AppendEntry(ents: seq<Entry>) returns (ok: bool)
      requires Valid()
      modifies this`uncommitted, log, log.tail
      ensures Valid() && ok == Pipeline.AppendEntry(limits, old(State()), ents).Some?
      ensures State() == if ok then Pipeline.AppendEntry(limits, old(State()), ents).value else old(State())
    {
      ok := MaybeIncrease(ents);
      if ok {
        AppendEntryGood(limits, old(State()), ents);
        var last := log.LastIndex();
        var _ := log.Append(Stamp(ents, term, last));
      }
    }

    method BecomeLeader()
      requires Valid() && log.persisted == log.LastIndex()
      modifies this, log, log.tail
      ensures Valid() && Lead(limits, old(State())) == Some(State())
    {
      hide LogOk, CursorsOk, Abs, Increase, Pipeline.AppendEntry, DataSize;
      var last := log.LastIndex();
      leader, uncommitted, tailIndex, pendingConf := true, 0, last, last;
      EmptyAppends(limits, State(), EMPTY);
      var ok := AppendEntry([EMPTY]);
    }

    /** A batch of proposals; it is dropped if one cannot be read or if it is too big. An empty one is not
        allowed. */
    method ProposeBatch(joint: bool, ps: seq<Proposal>) returns (ok: bool)
      requires Valid() && ps != []
      modifies this`uncommitted, this`pendingConf, log, log.tail
      ensures Valid() && State() == Propose(limits, old(State()), joint, ps)
      ensures !ok ==> Abs(log.State()) == old(Abs(log.State()))
      ensures ok ==> exists es, k :: Survivors(old(State()), joint, ps, es, k, pendingConf)
                                     && Appended(old(Abs(log.State())), es, term, Abs(log.State()))
    {
      hide CursorsOk, Screened, Pipeline.AppendEntry, ScreenedAs, Appended;
      ghost var r := State();
      var ents := ScreenBatch(joint, ps);
      ghost var k :| Survivors(r, joint, ps, ents, k, pendingConf);
      ok := |ents| == |ps|;
      if ok {
        StampAppends(Abs(log.State()), ents, term);
        hide LogOk, Abs;
        ghost var r1 := State();
        ok := AppendEntry(ents);
        if ok {
          AppendedIs(limits, r1, ents);
        }
      }
    }

    /** A membership change that must wait is replaced by an empty entry; one that passes is recorded. */
    method ScreenOne(joint: bool, p: Proposal, index: nat) returns (e: Entry)
      modifies this`pendingConf
      ensures var passes := IsConfChange(p.entry) && Accepts(old(State()), joint, p);
              && State() == (if passes then old(State()).(pendingConf := index) else old(State()))
              && e == if IsConfChange(p.entry) && !passes then EMPTY else p.entry
      ensures pendingConf == old(if IsConfChange(p.entry) && p.leaves == joint && pendingConf <= log.applied then index else pendingConf)
    {
      e := p.entry;
      if IsConfChange(e) {
        if pendingConf <= log.applied && joint == p.leaves {
          pendingConf := index;
        } else {
          e := EMPTY;
        }
      }
    }

    /** Screens a batch up to the first proposal that cannot be read. */
    method ScreenBatch(joint: bool, ps: seq<Proposal>) returns (ents: seq<Entry>)
      requires Valid()
      modifies this`pendingConf
      ensures State() == old(Screened(State(), joint, ps)).0
      ensures ents == old(Screened(State(), joint, ps)).1
      ensures exists k :: Survivors(old(State()), joint, ps, ents, k, pendingConf)
    {
      hide LogOk, CursorsOk, Abs, Screen, Readable, Survivors;
      ScreenedSurvive(State(), joint, ps);
      IndexesRefine(log.State());
      var last := log.LastIndex();
      ghost var r, k := State(), Readable(ps);
      ghost var qs := ps[..k];
      ents := [];
      assert qs[0..] == qs;
      var i := 0;
      while i < |ps| && !Unreadable(ps[i])
        invariant 0 <= i <= k
        invariant |ents| == i && State() == r.(pendingConf := pendingConf)
        invariant Screen(r, joint, qs, last + 1).0 == Screen(State(), joint, qs[i..], last + 1 + i).0
        invariant Screen(r, joint, qs, last + 1).1 == ents + Screen(State(), joint, qs[i..], last + 1 + i).1
      {
        assert qs[i..][1..] == qs[i + 1..];
        ghost var before := State();
        var e := ScreenOne(joint, ps[i], last + i + 1);
        ScreenStep(before, joint, qs[i..], last + 1 + i);
        ents := ents + [e];
        i := i + 1;
      }
      assert qs[k..] == [];
      ScreenNone(State(), joint, last + 1 + k);
    }

    /** After applying, a leader in a configuration that leaves itself proposes to leave it. */
    method Apply(applied: nat, autoLeave: bool)
      requires Valid() && CommitApply(limits, State(), applied, autoLeave).Some?
      modifies this`uncommitted, this`pendingConf, log, log.tail
      ensures Valid() && CommitApply(limits, old(State()), applied, autoLeave) == Some(State())
    {
      hide LogOk, CursorsOk, Abs, Increase, Pipeline.AppendEntry, DataSize, LogModel.LastIndex;
      var before := log.applied;
      log.AppliedTo(applied);
      if autoLeave && before <= pendingConf <= applied && leader {
        EmptyAppends(limits, State(), LEAVE_JOINT);
        var ok := AppendEntry([LEAVE_JOINT]);
        pendingConf := log.LastIndex();
      }
    }

    // ----- ready and advance

    /** The next page of committed entries. */
    method TakeLight() returns (ents: seq<Entry>)
      requires Valid() && LightReady(limits, State()).Some?
      modifies this`uncommitted, this`since
      ensures Valid() && LightReady(limits, old(State())) == Some((State(), ents))
    {
      hide LogOk, CursorsOk, NextEntries, Reduce;
      var next := log.NextEntriesSince(since, Some(limits.pageSize), limits.w);
      ents := match next case Some(es) => es case None => [];
      ReduceUncommitted(ents);
      if ents != [] {
        since := ents[|ents| - 1].index;
      }
    }

    /** What the application must persist, send and apply now. */
    method TakeReady() returns (rd: Ready)
      requires Valid() && MakeReady(limits, State()).Some?
      modifies this
      ensures Valid() && MakeReady(limits, old(State())) == Some((State(), rd))
    {
      hide LogOk, CursorsOk, LightReady, HasNext;
      maxNumber := maxNumber + 1;
      if leader && !prevLeader {
        records := [];
      }
      var hs := Hard(term, vote, log.committed);
      if log.tail.snap.Some? {
        since := log.tail.snap.value.index;
      }
      var last := LastOf(log.tail.entries);
      var snap := if log.tail.snap.Some? then Some(log.tail.snap.value.index) else None;
      var ents := TakeLight();
      records := records + [Record(maxNumber, last, snap)];
      rd := Ready(maxNumber, leader, if hs != prevHard then Some(hs) else None, log.tail.snap, log.tail.entries, ents);
    }

    /** The ready `rd` describes the tail, and the store holds it. */
    ghost predicate Written(rd: Ready)
      requires Valid()
      reads this, log, log.store, log.tail
    {
      && records != []
      && records[|records| - 1] == Record(rd.number, LastOf(log.tail.entries), SnapIndex(log.State()))
      && Stored(log.State())
    }

    /** The ready is in the store: nothing of it stays in the tail. */
    method ReportWritten(rd: Ready)
      requires Valid() && Written(rd)
      modifies this`prevLeader, this`prevHard, log.tail
      ensures Valid() && CommitReady(old(State()), rd) == Some(State())
      ensures log.tail.snap.None? && log.tail.entries == [] && log.tail.offset >= old(log.tail.offset)
    {
      hide LogOk, CursorsOk, Abs, Stored;
      prevLeader := rd.leads;
      if rd.hard.Some? {
        prevHard := rd.hard.value;
      }
      var rec := records[|records| - 1];
      ReportSnap(rec.snap);
      ReportEntries(rec.last);
    }

    method ReportSnap(snap: Option<nat>)
      requires Valid() && Stored(log.State()) && snap == SnapIndex(log.State())
      modifies log.tail
      ensures Valid() && Stored(log.State())
      ensures Done(log.State()) == if snap.Some? then StableSnap(old(log.State()), snap.value) else Done(old(log.State()))
      ensures log.tail.snap.None? && log.tail.entries == old(log.tail.entries) && log.tail.offset == old(log.tail.offset)
    {
      hide LogOk, CursorsOk, Abs;
      SnapReported(log.State());
      if snap.Some? {
        ReportedMayFinish(log.State());
        log.StableSnap(snap.value);
      }
    }

    method ReportEntries(last: Option<(nat, nat)>)
      requires Valid() && Stored(log.State()) && log.tail.snap.None? && last == LastOf(log.tail.entries)
      modifies log.tail
      ensures Valid()
      ensures Done(log.State()) == if last.Some? then StableTo(old(log.State()), last.value.0, last.value.1) else Done(old(log.State()))
      ensures log.tail.snap.None? && log.tail.entries == [] && log.tail.offset >= old(log.tail.offset)
    {
      hide LogOk, CursorsOk, Abs;
      EntriesReported(log.State());
      if last.Some? {
        LastIsTail(log.State());
        log.StableEntries(last.value.0, last.value.1);
      }
    }

    /** Pops the records up to `number`: the last snapshot, and the last entry behind it. */
    method PopRecords(number: nat) returns (snap: nat, index: nat, t: nat)
      modifies this`records
      ensures var p := Pop(old(records), number, Popped([], 0, 0, 0));
              snap == p.snap && index == p.index && t == p.term && records == p.rest
    {
      snap, index, t := 0, 0, 0;
      while records != [] && records[0].number <= number
        invariant Pop(old(records), number, Popped([], 0, 0, 0)) == Pop(records, number, Popped([], snap, index, t))
        decreases |records|
      {
        var x := records[0];
        if x.snap.Some? {
          snap, index, t := x.snap.value, 0, 0;
        }
        if x.last.Some? {
          index, t := x.last.value.0, x.last.value.1;
        }
        records := records[1..];
      }
    }

    /** Everything up to the ready of this number is persisted; a leader may commit more, up to `mci`. */
    method OnPersistReady(number: nat, mci: nat)
      requires Valid() && (leader ==> term > 0)
      requires forall k :: 0 <= k < |records| && records[k].snap.Some? ==> SnapFits(log.State(), records[k].snap.value)
      modifies this`records, log
      ensures Valid() && OnPersist(old(State()), number, mci) == Some(State())
      ensures log.applied == old(log.applied)
    {
      hide LogOk, CursorsOk, Abs, Pop, SnapFits, MaybePersist, MaybePersistSnap, MaybeCommit;
      ghost var r := State();
      SnapFitsPositive(r.records, log.State());
      PopFindsSnap(r.records, number, Popped([], 0, 0, 0));
      OnPersistIs(r, number, mci);
      var snap, index, t := PopRecords(number);
      PersistedLogSound(r, Pop(r.records, number, Popped([], 0, 0, 0)), mci);
      PersistInLog(snap, index, t, mci);
      hide PersistedLog;
    }

    /** Marks a snapshot and an entry as persisted in the log. */
    method PersistInLog(snap: nat, index: nat, t: nat, mci: nat)
      requires Valid() && (leader ==> term > 0) && (snap > 0 ==> SnapFits(log.State(), snap))
      modifies log
      ensures Valid()
      ensures forall rest: seq<Record> :: PersistedLog(old(State()), Popped(rest, snap, index, t), mci) == Done(log.State())
    {
      hide LogOk, CursorsOk, Abs, MaybePersist, MaybePersistSnap, MaybeCommit;
      if snap != 0 {
        var _ := log.MaybePersistSnap(snap);
      }
      if index != 0 {
        var moved := log.MaybePersist(index, t);
        if moved && leader {
          var _ := log.MaybeCommit(mci, term);
        }
      }
    }

    /** Everything was handled: reports the ready and hands out what became committed meanwhile. */
    method AdvanceAppend(rd: Ready, mci: nat) returns (committed: seq<Entry>)
      requires Valid() && Written(rd) && (leader ==> term > 0)
      requires forall k :: 0 <= k < |records| && records[k].snap.Some? ==> SnapFits(log.State(), records[k].snap.value)
      requires Pipeline.AdvanceAppend(limits, State(), rd, mci).Some?
      modifies this, log, log.tail
      ensures Valid() && Pipeline.AdvanceAppend(limits, old(State()), rd, mci) == Some((State(), committed))
    {
      hide LogOk, CursorsOk, Abs, CommitReady, OnPersist, LightReady, SnapFits;
      ghost var l := log.State();
      ReportWritten(rd);
      FitsStay(records, l, log.State());
      OnPersistReady(maxNumber, mci);
      committed := TakeLight();
      prevHard := prevHard.(commit := log.committed);
    }
  }

  /** The entries are what is left of the proposals up to the first that cannot be read, and the membership
      change among them, if any, is the recorded one. */
  ghost predicate Survivors(r: Raw, joint: bool, ps: seq<Proposal>, es: seq<Entry>, k: nat, pending: nat)
    requires LogOk(r.log)
  {
    && ReadableTo(ps, |es|)
    && ScreenedAs(r.pendingConf <= r.log.applied, joint, ps[..|es|], es, k)
    && pending == if k < |es| then Last(Abs(r.log)) + 1 + k else r.pendingConf
  }

  lemma ReadableLength(ps: seq<Proposal>) returns (n: nat)
    ensures ReadableTo(ps, n) && n == Readable(ps)
  {
    n := Readable(ps);
    forall i | 0 <= i < n && IsConfChange(ps[i].entry)
      ensures ps[i].parses
    {
      assert !Unreadable(ps[i]);
    }
  }

  lemma ScreenedSurvive(r: Raw, joint: bool, ps: seq<Proposal>)
    requires LogOk(r.log) && CursorsOk(r.log)
    ensures exists k :: Survivors(r, joint, ps, Screened(r, joint, ps).1, k, Screened(r, joint, ps).0.pendingConf)
  {
    var n := ReadableLength(ps);
    AppliedInLog(r.log);
    var k := ScreenedIs(r, joint, ps, n);
    hide LogOk, CursorsOk, Abs, Screened, ScreenedAs;
    assert Survivors(r, joint, ps, Screened(r, joint, ps).1, k, Screened(r, joint, ps).0.pendingConf);
  }

  lemma AppendedIs(c: Limits, r: Raw, es: seq<Entry>)
    requires LogOk(r.log) && CursorsOk(r.log) && Pipeline.AppendEntry(c, r, es).Some?
    ensures var l := Pipeline.AppendEntry(c, r, es).value.log;
            LogOk(l) && Appended(Abs(r.log), es, r.term, Abs(l))
  {
    hide LogOk, CursorsOk, Abs, Appended;
    assert Increase(c, r, es).Some?;
    AppendEntryGood(c, r, es);
    StampAppends(Abs(r.log), es, r.term);
  }

  lemma SnapFitsPositive(records: seq<Record>, l: LogState)
    requires forall k :: 0 <= k < |records| && records[k].snap.Some? ==> SnapFits(l, records[k].snap.value)
    ensures forall k :: 0 <= k < |records| && records[k].snap.Some? ==> records[k].snap.value > 0
  {
  }

  lemma FitsStay(records: seq<Record>, l: LogState, l': LogState)
    requires forall k :: 0 <= k < |records| && records[k].snap.Some? ==> SnapFits(l, records[k].snap.value)
    requires l'.committed == l.committed && l'.tail.offset >= l.tail.offset && l'.tail.snap.None?
    ensures forall k :: 0 <= k < |records| && records[k].snap.Some? ==> SnapFits(l', records[k].snap.value)
  {
  }

  lemma ReportedMayFinish(l: LogState)
    requires LogOk(l) && Stored(l) && l.tail.snap.Some?
    ensures Enabled(l, FinishSnap(l.tail.snap.value.index))
  {
  }

  lemma ScreenStep(r: Raw, joint: bool, ps: seq<Proposal>, next: nat)
    requires ps != []
    ensures var passes := IsConfChange(ps[0].entry) && Accepts(r, joint, ps[0]);
            var r1 := if passes then r.(pendingConf := next) else r;
            var e := if IsConfChange(ps[0].entry) && !passes then EMPTY else ps[0].entry;
            && Screen(r, joint, ps, next).0 == Screen(r1, joint, ps[1..], next + 1).0
            && Screen(r, joint, ps, next).1 == [e] + Screen(r1, joint, ps[1..], next + 1).1
  {
  }

  /** An entry without data is never refused. */
  lemma EmptyAppends(c: Limits, r: Raw, e: Entry)
    requires LogOk(r.log) && CursorsOk(r.log) && e.data == []
    ensures Pipeline.AppendEntry(c, r, [e]).Some?
  {
    assert DataSize([e][1..]) == 0;
    assert Increase(c, r, [e]).Some?;
    AppendEntryGood(c, r, [e]);
  }
}
