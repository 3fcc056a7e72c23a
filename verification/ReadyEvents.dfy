/** The ready, its writing, its reporting, and whole runs of the pipeline. */
module ReadyEvents {
  import opened Types
  import opened LogModel
  import opened LogRuns
  import opened Pipeline
  import opened PipelineRuns
  import opened PipelineKeeps
  import opened PipelineEvents

  // ----- applying

  lemma AppliedGood(c: Limits, s: Sys, index: nat, autoLeave: bool)
    requires SysOk(c, s) && CanHappen(s, Applied(index, autoLeave))
    ensures Good(c, Happens(c, s, Applied(index, autoLeave)))
  {
    hide LogOk, CursorsOk, Abs, StreamOk, RecordsOk, ReadyOk, Advances, UncommittedOk, PendingOk, AppendEntry, SnapAfter;
    var r := s.raw;
    var l := AppliedTo(r.log, index).state;
    var s1 := s.(raw := r.(log := l));
    CursorOpsSound(r.log, Apply(index));
    StreamSnap(s);
    JustApplied(c, s, s1);
    if autoLeave && r.log.applied <= r.pendingConf <= index && r.leader {
      LeaveJointGood(c, s1, autoLeave, index, s);
    }
  }

  lemma JustApplied(c: Limits, s: Sys, s1: Sys)
    requires SysOk(c, s) && s1 == s.(raw := s.raw.(log := s.raw.log.(applied := s1.raw.log.applied)))
    requires s.raw.log.applied == s1.raw.log.applied || s.raw.log.applied <= s1.raw.log.applied <= s.raw.since
    requires CursorsOk(s1.raw.log)
    ensures SysOk(c, s1)
  {
    hide CursorsOk, Abs, HandedOk, SnapAfter;
    LogOkSame(s.raw.log, s1.raw.log);
    hide LogOk;
    SameLogPending(c, s.raw, s1.raw);
    hide UncommittedOk, PendingOk;
  }

  /** The automatic change out of a joint configuration is never refused. */
  lemma LeaveJointGood(c: Limits, s1: Sys, autoLeave: bool, index: nat, s: Sys)
    requires SysOk(c, s1) && s1.raw.leader && s1.raw.pendingConf <= index == s1.raw.log.applied
    requires s1 == s.(raw := s.raw.(log := s1.raw.log)) && LogOk(s.raw.log) && CursorsOk(s.raw.log)
    requires AppliedTo(s.raw.log, index) == Done(s1.raw.log) && autoLeave && s.raw.log.applied <= s.raw.pendingConf
    requires s.rd.None?
    ensures Good(c, Happens(c, s, Applied(index, autoLeave)))
  {
    hide LogOk, CursorsOk, Abs, StreamOk, RecordsOk, Advances, UncommittedOk, PendingOk, AppendEntry;
    var r := s1.raw;
    assert DataSize([LEAVE_JOINT][1..]) == 0;
    assert Increase(c, r, [LEAVE_JOINT]).Some?;
    AppendEntryGood(c, r, [LEAVE_JOINT]);
    var s' := Happens(c, s, Applied(index, autoLeave)).value;
    AppendKeepsStream(s1, s');
    AppendReady(s1, s');
    IndexesRefine(r.log);
    IndexesRefine(s'.raw.log);
    AppendUncommitted(c, r, r, s'.raw, [LEAVE_JOINT]);
    AppendPending(r, s'.raw, Stamp([LEAVE_JOINT], r.term, Last(Abs(r.log))));
  }

  // ----- a ready

  lemma {:induction false} SnapAfterAppend(records: seq<Record>, x: Record, acc: Option<nat>)
    ensures SnapAfter(records + [x], acc) == if x.snap.Some? then x.snap else SnapAfter(records, acc)
    decreases |records|
  {
    if records == [] {
      assert [x][1..] == [];
    } else {
      SnapAfterAppend(records[1..], x, if records[0].snap.Some? then records[0].snap else acc);
      assert (records + [x])[1..] == records[1..] + [x];
    }
  }

  lemma {:induction false} SnapAfterNone(records: seq<Record>, acc: Option<nat>)
    requires forall x :: x in records ==> x.snap.None?
    ensures SnapAfter(records, acc) == acc
    decreases |records|
  {
    if records != [] {
      SnapAfterNone(records[1..], acc);
    }
  }

  /** The remaining records of a new leader are empty and can be dropped. */
  lemma DrainGood(c: Limits, s: Sys)
    requires SysOk(c, s) && s.rd.None?
    ensures Drained(s.raw).Some?
    ensures var r' := Drained(s.raw).value;
            && r' == s.raw.(records := r'.records)
            && RecordsOk(s.(raw := r')) && StreamOk(s.(raw := r'))
            && (r'.leader && !r'.prevLeader ==> r'.records == [])
            && (r'.records == s.raw.records || r'.records == [])
  {
    hide LogOk, CursorsOk, Abs, HandedOk, SnapAfter, SnapFits;
    var r := s.raw;
    if r.leader && !r.prevLeader {
      SnapAfterNone(r.records, None);
      assert SnapAfter([], None) == SnapAfter(r.records, None) by {
        SnapAfterNone([], None);
      }
    }
  }

  /** A pending snapshot is the next thing the application gets, and nothing else is ready then. */
  lemma PastSnapshotGood(c: Limits, s: Sys)
    requires LogOk(s.raw.log) && CursorsOk(s.raw.log) && StreamOk(s) && UncommittedOk(c, s.raw)
    ensures PastSnapshot(s.raw).Some?
    ensures var r' := PastSnapshot(s.raw).value;
            && r' == s.raw.(since := r'.since)
            && MayHandOut(c, r', s.handed, NewFloor(s))
            && r'.log.applied <= Max(r'.since, NewFloor(s)) && (r'.since == 0 || r'.log.applied <= r'.since)
            && (if s.raw.log.tail.snap.Some? then r'.since == NewFloor(s) == s.raw.log.tail.snap.value.index
                else r'.since == s.raw.since && NewFloor(s) == s.floor)
  {
    hide LogOk, Abs;
    AbsBase(s.raw.log);
    IndexesRefine(s.raw.log);
    StreamSnap(s);
    if s.raw.log.tail.snap.Some? {
      SnapshotHanded(Abs(s.raw.log), s.handed, s.raw.since, s.floor, s.raw.log.tail.snap.value.index,
                     Min(s.raw.log.committed, s.raw.log.persisted));
      SnapshotUncommitted(c, s.raw, s.raw.log.tail.snap.value.index);
    }
  }

  function NewFloor(s: Sys): nat {
    match s.raw.log.tail.snap
    case None => s.floor
    case Some(sn) => Max(s.floor, sn.index)
  }

  lemma SnapshotHanded(g: Log, handed: seq<Entry>, since: nat, floor: nat, i: nat, limit: nat)
    requires HandedOk(g, handed, since, floor, limit) && since <= i && floor <= i
    ensures HandedOk(g, handed, i, i, limit)
  {
  }

  lemma SnapshotUncommitted(c: Limits, r: Raw, i: nat)
    requires LogOk(r.log) && CursorsOk(r.log) && UncommittedOk(c, r) && r.since <= i == Abs(r.log).base
    ensures UncommittedOk(c, r.(since := i))
  {
    hide LogOk, Abs, DataAfter;
  }

  /** A ready never fails an assertion, and describes the tail. */
  lemma TakeReadyGood(c: Limits, s: Sys)
    requires SysOk(c, s) && CanHappen(s, TakeReady)
    ensures Good(c, Happens(c, s, TakeReady))
  {
    hide LogOk, CursorsOk, Abs, StreamOk, RecordsOk, ReadyOk, UncommittedOk, PendingOk, SnapAfter, LightReady, Drained, PastSnapshot, MayHandOut;
    var s0 := s.(raw := s.raw.(maxNumber := s.raw.maxNumber + 1));
    NumberedGood(c, s, s0);
    DrainGood(c, s0);
    var s1 := s0.(raw := Drained(s0.raw).value);
    DrainedUncommitted(c, s0, s1);
    PastSnapshotGood(c, s1);
    var r2 := PastSnapshot(s1.raw).value;
    LightSound(c, r2, s.handed, NewFloor(s1));
    var r3, es := LightReady(c, r2).value.0, LightReady(c, r2).value.1;
    MakeReadyIs(c, s.raw, s1.raw, r2, r3, es);
    var s' := Happens(c, s, TakeReady).value;
    NumbersBelow(s, s1);
    hide MakeReady;
    MadeStream(s1, r2, r3, es, s', c);
    MadeRecords(s1, s');
    MadeReady(c, s, s');
    MadeUncommitted(c, r3, s'.raw, s.handed + es, NewFloor(s1));
    SamePending(s.raw, s'.raw);
  }

  function RecordOf(r: Raw, number: nat): Record {
    Record(number, LastOf(r.log.tail.entries), SnapIndex(r.log))
  }

  lemma MakeReadyIs(c: Limits, r: Raw, r1: Raw, r2: Raw, r3: Raw, es: seq<Entry>)
    requires LogOk(r.log) && CursorsOk(r.log) && r1.log == r.log && r2.log == r.log && r3.log == r.log
    requires Drained(r.(maxNumber := r.maxNumber + 1)) == Some(r1) && PastSnapshot(r1) == Some(r2) && LightReady(c, r2) == Some((r3, es))
    ensures MakeReady(c, r).Some?
    ensures MakeReady(c, r).value.0 == r3.(records := r3.records + [RecordOf(r, r3.maxNumber)])
    ensures MakeReady(c, r).value.1 ==
            Ready(r3.maxNumber, r.leader, if HardState(r) != r.prevHard then Some(HardState(r)) else None,
                  r.log.tail.snap, r.log.tail.entries, es)
  {
    hide LogOk, CursorsOk, Drained, PastSnapshot, LightReady;
  }

  lemma NumbersBelow(s: Sys, s1: Sys)
    requires RecordsOk(s) && LogOk(s.raw.log) && ReadyOk(s) && s.rd.None?
    requires s1.raw.records == s.raw.records || s1.raw.records == []
    requires s1.raw.maxNumber == s.raw.maxNumber + 1
    ensures forall k :: 0 <= k < |s1.raw.records| ==> s1.raw.records[k].number < s1.raw.maxNumber
    ensures s.raw.log.tail.snap.Some? ==> s.raw.log.store.base < s.raw.log.tail.snap.value.index
  {
    hide LogOk, SnapFits;
  }

  lemma MadeReady(c: Limits, s: Sys, s': Sys)
    requires LogOk(s.raw.log) && ReadyOk(s) && s.rd.None?
    requires s'.raw.log == s.raw.log && s'.raw.leader == s.raw.leader && s'.raw.maxNumber == s.raw.maxNumber + 1
    requires s'.raw.term == s.raw.term && s'.raw.vote == s.raw.vote && s'.raw.prevHard == s.raw.prevHard
    requires !s'.written && s'.rd.Some?
    requires s'.raw.records != [] && s'.raw.records[|s'.raw.records| - 1] == RecordOf(s.raw, s'.raw.maxNumber)
    requires s'.rd.value.number == s'.raw.maxNumber && s'.rd.value.leads == s.raw.leader
    requires s'.rd.value.hard == if HardState(s.raw) != s.raw.prevHard then Some(HardState(s.raw)) else None
    requires s'.raw.log.tail.snap.Some? ==> s'.raw.since == s'.floor == s'.raw.log.tail.snap.value.index
    ensures ReadyOk(s')
  {
    hide LogOk, LastOf;
  }

  lemma MadeUncommitted(c: Limits, r: Raw, r': Raw, handed: seq<Entry>, floor: nat)
    requires MayHandOut(c, r, handed, floor) && r' == r.(records := r'.records, prevHard := r'.prevHard)
    ensures UncommittedOk(c, r')
  {
  }

  lemma NumberedGood(c: Limits, s: Sys, s0: Sys)
    requires SysOk(c, s) && s.rd.None? && s0 == s.(raw := s.raw.(maxNumber := s.raw.maxNumber + 1))
    ensures SysOk(c, s0)
  {
    SamePending(s.raw, s0.raw);
    hide PendingOk;
    hide LogOk, CursorsOk, Abs, HandedOk, SnapFits, SnapAfter, DataAfter;
  }

  lemma DrainedUncommitted(c: Limits, s0: Sys, s1: Sys)
    requires SysOk(c, s0) && s1.raw == s0.raw.(records := s1.raw.records)
    ensures UncommittedOk(c, s1.raw) && PendingOk(s1.raw)
  {
    hide LogOk, CursorsOk, Abs, DataAfter;
    SameLogPending(c, s0.raw, s1.raw);
  }

  lemma SamePending(r: Raw, r': Raw)
    requires LogOk(r.log) && PendingOk(r) && r'.log == r.log && r'.leader == r.leader && r'.term == r.term && r'.pendingConf == r.pendingConf
    ensures PendingOk(r')
  {
    hide LogOk, Abs;
    forall i: nat ensures Unapplied(r', i) == Unapplied(r, i) {}
  }

  lemma MadeStream(s1: Sys, r2: Raw, r3: Raw, es: seq<Entry>, s': Sys, c: Limits)
    requires LogOk(s1.raw.log) && CursorsOk(s1.raw.log) && StreamOk(s1)
    requires r2 == s1.raw.(since := r2.since)
    requires r2.log.applied <= Max(r2.since, NewFloor(s1)) && (r2.since == 0 || r2.log.applied <= r2.since)
    requires if s1.raw.log.tail.snap.Some? then r2.since == NewFloor(s1) == s1.raw.log.tail.snap.value.index
             else r2.since == s1.raw.since && NewFloor(s1) == s1.floor
    requires r3.log == r2.log && MayHandOut(c, r3, s1.handed + es, NewFloor(s1))
    requires es == [] ==> r3 == r2
    requires es != [] ==> Max(r2.since, NewFloor(s1)) < r3.since <= Min(r2.log.committed, r2.log.persisted)
    requires s'.raw.log == r3.log && s'.raw.since == r3.since && s'.handed == s1.handed + es && s'.floor == NewFloor(s1)
    requires s'.raw.records == s1.raw.records + [Record(s1.raw.maxNumber, LastOf(s1.raw.log.tail.entries), SnapIndex(s1.raw.log))]
    ensures StreamOk(s') && (s'.raw.log.tail.snap.Some? ==> s'.raw.since == s'.floor == s'.raw.log.tail.snap.value.index)
  {
    hide LogOk, Abs, HandedOk, SnapAfter;
    AbsBase(s1.raw.log);
    SnapAfterAppend(s1.raw.records, Record(s1.raw.maxNumber, LastOf(s1.raw.log.tail.entries), SnapIndex(s1.raw.log)), None);
    StreamSnap(s1);
  }

  lemma MadeRecords(s1: Sys, s': Sys)
    requires LogOk(s1.raw.log) && CursorsOk(s1.raw.log) && RecordsOk(s1) && s'.rd.Some? && s'.raw.log == s1.raw.log && s'.raw.maxNumber == s1.raw.maxNumber
    requires s1.raw.log.tail.snap.Some? ==> s1.raw.log.store.base < s1.raw.log.tail.snap.value.index
    requires forall k :: 0 <= k < |s1.raw.records| ==> s1.raw.records[k].number < s1.raw.maxNumber
    requires s'.raw.records == s1.raw.records + [Record(s1.raw.maxNumber, LastOf(s1.raw.log.tail.entries), SnapIndex(s1.raw.log))]
    ensures RecordsOk(s')
  {
    AbsBase(s1.raw.log);
    hide Abs;
  }

  // ----- writing and reporting a ready

  /** Everything the ready asked for can be written, after which the store holds what the tail holds. */
  lemma WriteAllSound(l: LogState)
    requires LogOk(l) && CursorsOk(l) && (l.tail.snap.Some? ==> l.store.base < l.tail.snap.value.index)
    ensures Sound(l, WriteAll(l)) && Abs(WriteAll(l).state) == Abs(l)
    ensures WriteAll(l).state == l.(store := WriteAll(l).state.store) && Stored(WriteAll(l).state)
  {
    hide Abs, Advances, ApproxTotal;
    if l.tail.snap.None? {
      WriteEntriesSound(l);
      WriteEntriesStored(l);
    } else {
      var l1 := Do(l, WriteSnap).state;
      SnapOpsSound(l, WriteSnap);
      WriteEntriesSound(l1);
      WriteEntriesStored(l1);
      AdvancesTrans(l, l1, Do(l1, WriteEntries).state);
    }
  }

  lemma WriteEntriesStored(l: LogState)
    requires LogOk(l) && Enabled(l, WriteEntries)
    requires Do(l, WriteEntries).Done? && LogOk(Do(l, WriteEntries).state)
    ensures Do(l, WriteEntries).state == l.(store := Do(l, WriteEntries).state.store) && Stored(Do(l, WriteEntries).state)
  {
    hide ApproxTotal;
  }

  lemma WriteGood(c: Limits, s: Sys)
    requires SysOk(c, s) && CanHappen(s, Write)
    ensures Good(c, Happens(c, s, Write))
  {
    hide LogOk, CursorsOk, Abs, StreamOk, RecordsOk, Advances, SnapAfter, WriteAll, Stored;
    var l := s.raw.log;
    WriteAllSound(l);
    var s' := Happens(c, s, Write).value;
    StreamSnap(s);
    StreamStays(s, s');
    RecordsFitWritten(s, s');
    SameLogPending(c, s.raw, s'.raw);
    hide UncommittedOk, PendingOk;
  }

  lemma RecordsFitWritten(s: Sys, s': Sys)
    requires RecordsOk(s) && s'.raw == s.raw.(log := s'.raw.log) && s'.rd == s.rd
    requires s'.raw.log.tail == s.raw.log.tail && s.raw.log.committed <= s'.raw.log.committed
    ensures RecordsOk(s')
  {
  }

  /** Reporting a written ready empties the tail and leaves the log as it is. */
  lemma CommitReadySound(l: LogState)
    requires LogOk(l) && CursorsOk(l) && Stored(l)
    ensures var o1 := if l.tail.snap.Some? then StableSnap(l, l.tail.snap.value.index) else Done(l);
            && o1.Done? && LogOk(o1.state) && CursorsOk(o1.state)
            && o1.state.tail == l.tail.(snap := None) && o1.state.store == l.store
            && var last := LastOf(l.tail.entries);
               var o2 := if last.Some? then StableTo(o1.state, last.value.0, last.value.1) else o1;
               && Sound(l, o2) && Abs(o2.state) == Abs(l)
               && o2.state == l.(tail := o2.state.tail)
               && o2.state.tail.snap.None? && o2.state.tail.entries == [] && o2.state.tail.offset >= l.tail.offset
  {
    hide LogOk, CursorsOk, Abs, Advances, StableSnap, StableTo;
    var o1 := if l.tail.snap.Some? then StableSnap(l, l.tail.snap.value.index) else Done(l);
    SnapReported(l);
    EntriesReported(o1.state);
    var last := LastOf(l.tail.entries);
    var o2 := if last.Some? then StableTo(o1.state, last.value.0, last.value.1) else o1;
    AdvancesTrans(l, o1.state, o2.state);
  }

  lemma SnapReported(l: LogState)
    requires LogOk(l) && CursorsOk(l) && Stored(l)
    ensures var o1 := if l.tail.snap.Some? then StableSnap(l, l.tail.snap.value.index) else Done(l);
            && Sound(l, o1) && Abs(o1.state) == Abs(l) && Stored(o1.state)
            && o1.state == l.(tail := l.tail.(snap := None))
  {
    hide Abs, Advances, ApproxTotal, Indexed;
    if l.tail.snap.Some? {
      SnapOpsSound(l, FinishSnap(l.tail.snap.value.index));
    } else {
      AdvancesRefl(l);
    }
  }

  lemma EntriesReported(l: LogState)
    requires LogOk(l) && CursorsOk(l) && Stored(l) && l.tail.snap.None?
    ensures var last := LastOf(l.tail.entries);
            var o := if last.Some? then StableTo(l, last.value.0, last.value.1) else Done(l);
            && Sound(l, o) && Abs(o.state) == Abs(l)
            && o.state == l.(tail := o.state.tail)
            && o.state.tail.snap.None? && o.state.tail.entries == [] && o.state.tail.offset >= l.tail.offset
  {
    hide LogOk, CursorsOk, Abs, Advances, StableTo, TermOf;
    if l.tail.entries != [] {
      var last := LastOf(l.tail.entries).value;
      LastIsTail(l);
      FinishEntriesSound(l, last.0, last.1);
      TailCleared(l, last.0, last.1);
    } else {
      AdvancesRefl(l);
    }
  }

  lemma LastIsTail(l: LogState)
    requires LogOk(l) && l.tail.entries != []
    ensures var last := LastOf(l.tail.entries).value;
            last.0 == LastIndex(l) == Last(Abs(l)) && last.1 == TermOf(Abs(l), last.0)
  {
    IndexesRefine(l);
    assert At(Abs(l), Last(Abs(l))) == l.tail.entries[|l.tail.entries| - 1];
  }

  lemma TailCleared(l: LogState, index: nat, term: nat)
    requires LogOk(l) && StableTo(l, index, term).Done?
    ensures var l' := StableTo(l, index, term).state;
            l' == l.(tail := l'.tail) && l'.tail.snap.None? && l'.tail.entries == [] && l'.tail.offset >= l.tail.offset
  {
    hide ApproxTotal;
  }

  lemma CommitReadyIs(s: Sys)
    requires LogOk(s.raw.log) && CursorsOk(s.raw.log) && ReadyOk(s) && s.written
    ensures CommitReady(s.raw, s.rd.value).Some?
    ensures var r' := CommitReady(s.raw, s.rd.value).value;
            && r' == s.raw.(log := r'.log, prevLeader := s.raw.leader, prevHard := r'.prevHard)
            && r'.prevHard.term == s.raw.term && r'.prevHard.vote == s.raw.vote && r'.prevHard.commit <= s.raw.log.committed
            && Sound(s.raw.log, Done(r'.log)) && Abs(r'.log) == Abs(s.raw.log)
            && r'.log == s.raw.log.(tail := r'.log.tail)
            && r'.log.tail.snap.None? && r'.log.tail.entries == [] && r'.log.tail.offset >= s.raw.log.tail.offset
  {
    hide LogOk, CursorsOk, Abs, Advances, StableSnap, StableTo;
    CommitReadySound(s.raw.log);
  }

  /** After the report the node is as before, without a ready being handled. */
  lemma ReportedOk(c: Limits, s: Sys, s': Sys)
    requires SysOk(c, s) && s.written
    requires CommitReady(s.raw, s.rd.value).Some? && s' == s.(raw := CommitReady(s.raw, s.rd.value).value, rd := None, written := false)
    ensures SysOk(c, s')
  {
    hide LogOk, CursorsOk, Abs, StreamOk, Advances, SnapAfter, CommitReady, UncommittedOk, PendingOk;
    CommitReadyIs(s);
    StreamSnap(s);
    AbsBase(s.raw.log);
    AbsBase(s'.raw.log);
    StreamStays(s, s');
    ReportedPending(c, s.raw, s'.raw);
    ReportedRecords(s, s');
    hide ReadyOk, RecordsOk;
  }

  lemma ReportedRecords(s: Sys, s': Sys)
    requires RecordsOk(s) && s'.raw.records == s.raw.records && s'.raw.maxNumber == s.raw.maxNumber
    requires s'.raw.leader == s'.raw.prevLeader
    requires s'.raw.log.tail.snap.None? && s'.raw.log.tail.offset >= s.raw.log.tail.offset && s'.raw.log.committed == s.raw.log.committed
    ensures RecordsOk(s')
  {
  }

  lemma ReportedPending(c: Limits, r: Raw, r': Raw)
    requires LogOk(r.log) && LogOk(r'.log) && Abs(r'.log) == Abs(r.log) && r'.log.applied == r.log.applied
    requires r' == r.(log := r'.log, prevLeader := r'.prevLeader, prevHard := r'.prevHard)
    requires UncommittedOk(c, r) && PendingOk(r)
    ensures UncommittedOk(c, r') && PendingOk(r')
  {
    hide LogOk, Abs, DataAfter;
    forall i: nat ensures Unapplied(r', i) == Unapplied(r, i) {}
  }

  lemma AdvanceAsyncGood(c: Limits, s: Sys)
    requires SysOk(c, s) && CanHappen(s, AdvanceAsync)
    ensures Good(c, Happens(c, s, AdvanceAsync))
  {
    hide LogOk, CursorsOk, StreamOk, RecordsOk, CommitReady, UncommittedOk, PendingOk;
    CommitReadyIs(s);
    ReportedOk(c, s, s.(raw := CommitReady(s.raw, s.rd.value).value, rd := None, written := false));
  }

  // ----- persisted

  function SnapOf(i: nat): Option<nat> {
    if i == 0 then None else Some(i)
  }

  lemma {:induction false} SnapAfterFrom(records: seq<Record>, acc: Option<nat>)
    ensures SnapAfter(records, acc) == if SnapAfter(records, None).Some? then SnapAfter(records, None) else acc
    decreases |records|
  {
    if records != [] && records[0].snap.None? {
      SnapAfterFrom(records[1..], acc);
    } else if records != [] {
      SnapAfterFrom(records[1..], records[0].snap);
    }
  }

  /** Popping takes the prefix of the records with numbers up to `number`. */
  lemma {:induction false} PopTakesPrefix(records: seq<Record>, number: nat, p: Popped)
    ensures var q := Pop(records, number, p);
            && |q.rest| <= |records| && q.rest == records[|records| - |q.rest|..]
            && (q.rest == [] || q.rest[0].number > number)
            && (forall k :: 0 <= k < |records| - |q.rest| ==> records[k].number <= number)
    decreases |records|
  {
    if records != [] && records[0].number <= number {
      var p2 := PopOne(records[0], p);
      PopTakesPrefix(records[1..], number, p2);
      var q := Pop(records[1..], number, p2);
      assert Pop(records, number, p) == q;
      hide Pop;
      assert records[1..][|records| - 1 - |q.rest|..] == records[|records| - |q.rest|..];
      forall k | 0 < k < |records| - |q.rest|
        ensures records[k].number <= number
      {
        assert records[1..][k - 1].number <= number;
      }
    }
  }

  /** What it reports is the last snapshot in that prefix. */
  lemma {:induction false} PopFindsSnap(records: seq<Record>, number: nat, p: Popped)
    requires forall k :: 0 <= k < |records| && records[k].snap.Some? ==> records[k].snap.value > 0
    ensures var q := Pop(records, number, p);
            && SnapAfter(records, SnapOf(p.snap)) == SnapAfter(q.rest, SnapOf(q.snap))
            && (q.snap == p.snap || exists k :: 0 <= k < |records| && records[k].snap == Some(q.snap))
    decreases |records|
  {
    if records != [] && records[0].number <= number {
      var p2 := PopOne(records[0], p);
      PopFindsSnap(records[1..], number, p2);
      var q := Pop(records[1..], number, p2);
      assert Pop(records, number, p) == q;
      hide Pop;
      if q.snap != p2.snap {
        var k :| 0 <= k < |records| - 1 && records[1..][k].snap == Some(q.snap);
        assert records[k + 1].snap == Some(q.snap);
      } else if q.snap != p.snap {
        assert records[0].snap == Some(q.snap);
      }
    }
  }

  /** The log after the popped snapshot and entries are marked persisted, and possibly more is committed. */
  lemma PersistLogSound(r: Raw, p: Popped, mci: nat)
    requires LogOk(r.log) && CursorsOk(r.log) && (r.leader ==> r.term > 0)
    requires p.snap > 0 ==> SnapFits(r.log, p.snap)
    ensures var o1 := if p.snap != 0 then MaybePersistSnap(r.log, p.snap) else Done(r.log);
            && Sound(r.log, o1) && o1.state == r.log.(persisted := o1.state.persisted)
            && o1.state.persisted >= p.snap
            && var l2 := if p.index != 0 then MaybePersist(o1.state, p.index, p.term) else o1.state;
               && Sound(o1.state, Done(l2)) && l2 == r.log.(persisted := l2.persisted)
               && (r.leader ==> Sound(l2, MaybeCommit(l2, mci, r.term)))
               && (r.leader ==> MaybeCommit(l2, mci, r.term).state == l2.(committed := MaybeCommit(l2, mci, r.term).state.committed))
  {
    hide LogOk, Abs, Advances, StoreTerm;
    var o1 := if p.snap != 0 then MaybePersistSnap(r.log, p.snap) else Done(r.log);
    AdvancesRefl(r.log);
    if p.snap != 0 {
      CursorOpsSound(r.log, PersistSnap(p.snap));
    }
    AdvancesRefl(o1.state);
    PersistedSound(o1.state, p.index, p.term);
    var l2 := if p.index != 0 then MaybePersist(o1.state, p.index, p.term) else o1.state;
    if r.leader {
      CursorOpsSound(l2, CommitAt(mci, r.term));
    }
  }

  /** The log that `on_persist_ready` leaves. */
  function PersistedLog(r: Raw, p: Popped, mci: nat): Outcome
    requires LogOk(r.log)
  {
    var o1 := if p.snap != 0 then MaybePersistSnap(r.log, p.snap) else Done(r.log);
    if o1.Fatal? then Fatal
    else
      var l2 := if p.index != 0 then MaybePersist(o1.state, p.index, p.term) else o1.state;
      if r.leader && l2.persisted > o1.state.persisted then MaybeCommit(l2, mci, r.term) else Done(l2)
  }

  lemma PersistedLogSound(r: Raw, p: Popped, mci: nat)
    requires LogOk(r.log) && CursorsOk(r.log) && (r.leader ==> r.term > 0)
    requires p.snap > 0 ==> SnapFits(r.log, p.snap)
    ensures var o := PersistedLog(r, p, mci);
            && Sound(r.log, o) && o.state.store == r.log.store && o.state.tail == r.log.tail
            && o.state.applied == r.log.applied && o.state.persisted >= p.snap
  {
    hide LogOk, CursorsOk, Abs, Advances, MaybePersist, MaybePersistSnap, MaybeCommit;
    PersistLogSound(r, p, mci);
    var o1 := if p.snap != 0 then MaybePersistSnap(r.log, p.snap) else Done(r.log);
    var l2 := if p.index != 0 then MaybePersist(o1.state, p.index, p.term) else o1.state;
    AdvancesTrans(r.log, o1.state, l2);
    if r.leader {
      AdvancesTrans(r.log, l2, MaybeCommit(l2, mci, r.term).state);
    }
    PersistedGrows(o1.state, p.index, p.term);
  }

  lemma PersistedGrows(l: LogState, index: nat, term: nat)
    requires LogOk(l)
    ensures MaybePersist(l, index, term).persisted >= l.persisted
  {
  }

  lemma OnPersistIs(r: Raw, number: nat, mci: nat)
    requires LogOk(r.log)
    ensures var p := Pop(r.records, number, Popped([], 0, 0, 0));
            var o := PersistedLog(r, p, mci);
            OnPersist(r, number, mci) == if o.Fatal? then None else Some(r.(log := o.state, records := p.rest))
  {
    hide Pop, LogOk;
  }

  lemma OnPersistSound(c: Limits, s: Sys, number: nat, mci: nat)
    requires SysOk(c, s) && (s.rd.Some? ==> number < s.rd.value.number)
    ensures OnPersist(s.raw, number, mci).Some?
    ensures var r' := OnPersist(s.raw, number, mci).value;
            && SysOk(c, s.(raw := r'))
            && r' == s.raw.(log := r'.log, records := r'.records)
            && (number >= s.raw.maxNumber ==> r'.records == [])
            && s.raw.log.committed <= r'.log.committed && r'.log.tail == s.raw.log.tail
            && r'.log.applied == s.raw.log.applied
  {
    hide LogOk, CursorsOk, Abs, StreamOk, ReadyOk, UncommittedOk, PendingOk, Advances, SnapAfter, Pop, PersistedLog, SnapFits;
    var r := s.raw;
    var p := Pop(r.records, number, Popped([], 0, 0, 0));
    SnapsPositive(s);
    PopTakesPrefix(r.records, number, Popped([], 0, 0, 0));
    PopFindsSnap(r.records, number, Popped([], 0, 0, 0));
    LeaderPositive(r);
    OnPersistIs(r, number, mci);
    PersistedLogSound(r, p, mci);
    var l := PersistedLog(r, p, mci).state;
    AdvancesCommitted(r.log, l);
    var s1 := s.(raw := r.(log := l));
    SameLogKeeps(c, s, s1);
    PoppedOk(c, s, s1, number, p);
  }

  lemma SnapsPositive(s: Sys)
    requires RecordsOk(s)
    ensures forall k :: 0 <= k < |s.raw.records| && s.raw.records[k].snap.Some? ==> s.raw.records[k].snap.value > 0
  {
  }

  lemma PoppedOk(c: Limits, s: Sys, s1: Sys, number: nat, p: Popped)
    requires SysOk(c, s) && SysOk(c, s1) && (s.rd.Some? ==> number < s.rd.value.number)
    requires s1 == s.(raw := s.raw.(log := s1.raw.log))
    requires Advances(s.raw.log, s1.raw.log) && s1.raw.log.persisted >= p.snap
    requires var rs := s.raw.records;
             && |p.rest| <= |rs| && p.rest == rs[|rs| - |p.rest|..]
             && (forall k :: 0 <= k < |rs| - |p.rest| ==> rs[k].number <= number)
             && (p.rest == [] || p.rest[0].number > number)
             && SnapAfter(rs, None) == SnapAfter(p.rest, SnapOf(p.snap))
    ensures SysOk(c, s1.(raw := s1.raw.(records := p.rest)))
    ensures number >= s.raw.maxNumber ==> p.rest == []
  {
    hide LogOk, CursorsOk, Abs, HandedOk, KeepsTo, SnapAfter, SnapFits, DataAfter;
    var s2 := s1.(raw := s1.raw.(records := p.rest));
    SnapAfterFrom(p.rest, SnapOf(p.snap));
    RestRecords(s1, s2, number);
    SamePending(s1.raw, s2.raw);
    hide PendingOk;
  }

  lemma RestRecords(s: Sys, s': Sys, number: nat)
    requires RecordsOk(s) && s' == s.(raw := s.raw.(records := s'.raw.records))
    requires |s'.raw.records| <= |s.raw.records| && s'.raw.records == s.raw.records[|s.raw.records| - |s'.raw.records|..]
    requires s'.raw.records == [] || s'.raw.records[0].number > number
    ensures RecordsOk(s')
    ensures number >= s.raw.maxNumber ==> s'.raw.records == []
  {
    hide SnapFits;
  }

  lemma PersistedGood(c: Limits, s: Sys, number: nat, mci: nat)
    requires SysOk(c, s) && CanHappen(s, Persisted(number, mci))
    ensures Good(c, Happens(c, s, Persisted(number, mci)))
  {
    hide SysOk, OnPersist;
    OnPersistSound(c, s, number, mci);
  }

  // ----- advancing synchronously

  /** A page handed out while no ready is being handled and no snapshot is pending. */
  lemma PageOk(c: Limits, s: Sys, s': Sys)
    requires SysOk(c, s) && s.rd.None? && s.raw.log.tail.snap.None? && LightReady(c, s.raw).Some?
    requires var r', es := LightReady(c, s.raw).value.0, LightReady(c, s.raw).value.1;
             s' == s.(raw := r'.(prevHard := s'.raw.prevHard), handed := s.handed + es)
    ensures SysOk(c, s')
  {
    hide LogOk, CursorsOk, Abs, HandedOk, SnapFits, UncommittedOk, PendingOk, SnapAfter, LightReady;
    assert MayHandOut(c, s.raw, s.handed, s.floor);
    LightSound(c, s.raw, s.handed, s.floor);
    var r' := LightReady(c, s.raw).value.0;
    MadeUncommitted(c, r', s'.raw, s'.handed, s'.floor);
    SamePending(s.raw, s'.raw);
  }

  lemma AdvanceSyncGood(c: Limits, s: Sys, mci: nat)
    requires SysOk(c, s) && CanHappen(s, AdvanceSync(mci))
    ensures Good(c, Happens(c, s, AdvanceSync(mci)))
    ensures Happens(c, s, AdvanceSync(mci)).value.raw.records == []
    ensures Happens(c, s, AdvanceSync(mci)).value.raw.since >= s.raw.since
    ensures Happens(c, s, AdvanceSync(mci)).value.raw.log.applied == s.raw.log.applied
  {
    hide LogOk, CursorsOk, Abs, StreamOk, RecordsOk, CommitReady, OnPersist, LightReady, UncommittedOk, PendingOk, Advances;
    CommitReadyIs(s);
    var r1 := CommitReady(s.raw, s.rd.value).value;
    var s1 := s.(raw := r1, rd := None, written := false);
    ReportedOk(c, s, s1);
    OnPersistSound(c, s1, r1.maxNumber, mci);
    var s2 := s1.(raw := OnPersist(r1, r1.maxNumber, mci).value);
    PageSound(c, s2);
    var r3, es := LightReady(c, s2.raw).value.0, LightReady(c, s2.raw).value.1;
    var s' := s2.(raw := r3.(prevHard := HardState(r3)), handed := s2.handed + es);
    PageOk(c, s2, s');
    assert Happens(c, s, AdvanceSync(mci)) == Some(s');
  }

  lemma PageSound(c: Limits, s: Sys)
    requires SysOk(c, s) && s.rd.None? && s.raw.log.tail.snap.None?
    ensures LightReady(c, s.raw).Some?
    ensures var r', es := LightReady(c, s.raw).value.0, LightReady(c, s.raw).value.1;
            && r' == s.raw.(uncommitted := r'.uncommitted, since := r'.since) && r'.since >= s.raw.since
            && (es == [] <==> Max(s.raw.since, s.floor) >= Min(s.raw.log.committed, s.raw.log.persisted))
  {
    hide LogOk, CursorsOk, Abs, HandedOk, SnapFits, UncommittedOk, PendingOk, SnapAfter, LightReady, ReadyOk;
    assert MayHandOut(c, s.raw, s.handed, s.floor);
    LightSound(c, s.raw, s.handed, s.floor);
  }
}
