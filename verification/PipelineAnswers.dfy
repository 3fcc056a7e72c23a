/** What a ready says, what reporting it does, and what its handling comes to, over every run
    (raft-rs/src/raw_node.rs). */
module PipelineAnswers {
  import opened Types
  import opened LogModel
  import opened LogRuns
  import opened Pipeline
  import opened PipelineRuns
  import opened PipelineKeeps
  import opened PipelineEvents
  import opened ReadyEvents
  import opened PipelineSafety
  import opened CursorAnswers

  // ----- what a ready asks to write

  /** The ready being handled asks for everything the tail holds. */
  ghost predicate Describes(s: Sys) {
    s.rd.Some? ==> s.rd.value.snap == s.raw.log.tail.snap && s.rd.value.entries == s.raw.log.tail.entries
  }

  lemma ReadyDescribes(c: Limits, s: Sys)
    requires LogOk(s.raw.log) && CursorsOk(s.raw.log) && Happens(c, s, TakeReady).Some?
    ensures Describes(Happens(c, s, TakeReady).value)
  {
    hide LogOk, CursorsOk, Drained, PastSnapshot, LightReady;
    MadeSameLog(c, s.raw);
  }

  lemma MadeSameLog(c: Limits, r: Raw)
    requires LogOk(r.log) && CursorsOk(r.log) && MakeReady(c, r).Some?
    ensures MakeReady(c, r).value.0.log == r.log
    ensures MakeReady(c, r).value.1.snap == r.log.tail.snap && MakeReady(c, r).value.1.entries == r.log.tail.entries
  {
    hide LogOk, CursorsOk, NextEntries, DataSize, SkipTo, HasNext;
  }

  lemma EventDescribes(c: Limits, s: Sys, e: Event)
    requires SysOk(c, s) && CanHappen(s, e) && Happens(c, s, e).Some? && Describes(s)
    ensures Describes(Happens(c, s, e).value)
  {
    match e
    case TakeReady => ReadyDescribes(c, s);
    case Write => WriteKeepsTail(c, s);
    case Persisted(number, mci) =>
      OnPersistSound(c, s, number, mci);
    case _ =>
      hide SysOk, LogOk, CursorsOk, Do, Lead, MaybeCommit, Propose, CommitReady, AdvanceAppend, CommitApply;
  }

  lemma WriteKeepsTail(c: Limits, s: Sys)
    requires SysOk(c, s) && CanHappen(s, Write) && Happens(c, s, Write).Some?
    ensures Happens(c, s, Write).value == s.(raw := s.raw.(log := Happens(c, s, Write).value.raw.log), written := true)
    ensures Happens(c, s, Write).value.raw.log.tail == s.raw.log.tail
  {
    WriteAllSound(s.raw.log);
    hide LogOk, CursorsOk, Abs, StreamOk, RecordsOk, UncommittedOk, PendingOk, WriteAll, Stored;
  }

  lemma {:induction false} RunDescribes(c: Limits, run: seq<Sys>, events: seq<Event>, i: nat)
    requires PipelineSafety.IsRun(c, run, events) && i < |run|
    ensures Describes(run[i])
  {
    if i == 0 {
      assert Init(run[0]);
    } else {
      RunDescribes(c, run, events, i - 1);
      NextDescribes(c, run, events, i - 1);
    }
  }

  lemma NextDescribes(c: Limits, run: seq<Sys>, events: seq<Event>, i: nat)
    requires PipelineSafety.IsRun(c, run, events) && i < |events| && Describes(run[i])
    ensures i + 1 < |run| && Describes(run[i + 1])
  {
    hide *;
    RunStep(c, run, events, i);
    RunOk(c, run, events, i);
    EventDescribes(c, run[i], events[i]);
  }

  /** The log that a store holds once the ready's snapshot and entries are written to it. */
  function WrittenTo(st: Store, rd: Ready): Log {
    if rd.snap.Some? then Log(rd.snap.value.index, rd.snap.value.term, rd.entries)
    else if rd.entries == [] || rd.entries[0].index <= st.base || rd.entries[0].index > st.base + |st.entries| + 1
    then Log(st.base, st.baseTerm, st.entries)
    else Log(st.base, st.baseTerm, st.entries[..rd.entries[0].index - st.base - 1] + rd.entries)
  }

  /** In every run, writing what a ready asks for to the store makes the store hold exactly the node's log; once
      it is written, the store does. */
  lemma ReadyCarriesLog(c: Limits, run: seq<Sys>, events: seq<Event>, i: nat)
    requires PipelineSafety.IsRun(c, run, events) && i < |run| && run[i].rd.Some?
    ensures var s := run[i];
            && LogOk(s.raw.log)
            && WrittenTo(s.raw.log.store, s.rd.value) == Abs(s.raw.log)
            && (s.written ==> Log(s.raw.log.store.base, s.raw.log.store.baseTerm, s.raw.log.store.entries) == Abs(s.raw.log))
  {
    RunDescribes(c, run, events, i);
    RunOk(c, run, events, i);
    hide CanHappen, Happens, Init, StreamOk, RecordsOk, UncommittedOk, PendingOk, CursorsOk;
    TailCompletesStore(run[i].raw.log, run[i].rd.value);
    if run[i].written {
      StoredIsLog(run[i].raw.log);
    }
  }

  lemma TailCompletesStore(l: LogState, rd: Ready)
    requires LogOk(l) && rd.snap == l.tail.snap && rd.entries == l.tail.entries
    ensures WrittenTo(l.store, rd) == Abs(l)
  {
    if l.tail.snap.None? && l.tail.entries == [] {
      assert l.store.entries[..|l.store.entries|] + [] == l.store.entries;
    }
  }

  lemma StoredIsLog(l: LogState)
    requires LogOk(l) && Stored(l)
    ensures Log(l.store.base, l.store.baseTerm, l.store.entries) == Abs(l)
  {
    if l.tail.snap.None? {
      var k := l.tail.offset - l.store.base - 1;
      assert l.store.entries == l.store.entries[..k] + l.store.entries[k..];
      if l.tail.entries == [] {
        assert l.store.entries[..k] + [] == l.store.entries;
      }
    }
  }

  // ----- what a ready hands out

  /** The next page: the entries behind what the application has, as many of those that are committed and
      persisted as fit a page. */
  function PageAfter(c: Limits, l: LogState, top: nat): (p: seq<Entry>)
    requires LogOk(l) && Abs(l).base <= top && Min(l.committed, l.persisted) <= Last(Abs(l))
  {
    var high := Min(l.committed, l.persisted);
    if top >= high then [] else LimitSize(Range(Abs(l), top + 1, high + 1), Some(c.pageSize), c.w)
  }

  /** A ready has the next number, says whether the node leads, carries the hard state exactly if it changed since
      it was last handed out, the tail's snapshot and entries, and the next page; with a snapshot there is no
      page, and the application is at the snapshot then. */
  lemma ReadySays(c: Limits, run: seq<Sys>, events: seq<Event>, i: nat)
    requires PipelineSafety.IsRun(c, run, events) && i < |events| && events[i].TakeReady?
    ensures run[i + 1].rd.Some? && LogOk(run[i].raw.log) && CursorsOk(run[i].raw.log)
    ensures var s, s', rd := run[i], run[i + 1], run[i + 1].rd.value;
            && rd.number == s.raw.maxNumber + 1 == s'.raw.maxNumber && rd.leads == s.raw.leader
            && rd.hard == (if HardState(s.raw) != s.raw.prevHard then Some(HardState(s.raw)) else None)
            && rd.snap == s.raw.log.tail.snap && rd.entries == s.raw.log.tail.entries
            && s'.handed == s.handed + rd.committed && s'.raw.log == s.raw.log
            && (rd.snap.Some? ==> rd.committed == [] && s'.raw.since == rd.snap.value.index && s'.floor == Max(s.floor, rd.snap.value.index))
            && (rd.snap.None? ==>
                  && Abs(s.raw.log).base <= Top(s) && Min(s.raw.log.committed, s.raw.log.persisted) <= Last(Abs(s.raw.log))
                  && rd.committed == PageAfter(c, s.raw.log, Top(s)) && s'.floor == s.floor)
  {
    RunOk(c, run, events, i);
    RunOk(c, run, events, i + 1);
    assert Happens(c, run[i], TakeReady) == Some(run[i + 1]);
    SysOkLog(c, run[i]);
    MadeParts(c, run[i].raw);
    CommittedInLog(run[i].raw.log);
    hide SysOk, LogOk, CursorsOk, MakeReady, CanHappen;
    if run[i].raw.log.tail.snap.None? {
      PageIs(c, run[i]);
    } else {
      SnapshotNoPage(c, run[i]);
    }
  }

  lemma MadeParts(c: Limits, r: Raw)
    requires LogOk(r.log) && CursorsOk(r.log) && MakeReady(c, r).Some?
    ensures var (r', rd) := MakeReady(c, r).value;
            && rd.number == r.maxNumber + 1 == r'.maxNumber && rd.leads == r.leader
            && rd.hard == (if HardState(r) != r.prevHard then Some(HardState(r)) else None)
            && rd.snap == r.log.tail.snap && rd.entries == r.log.tail.entries && r'.log == r.log
    ensures var (r', rd) := MakeReady(c, r).value;
            var next := NextEntries(r.log, if rd.snap.Some? then rd.snap.value.index else r.since, Some(c.pageSize), c.w);
            && rd.committed == (if next.Some? then next.value else [])
            && (rd.committed == [] && rd.snap.Some? ==> r'.since == rd.snap.value.index)
            && (rd.snap.Some? ==> !HasNext(r.log, rd.snap.value.index))
  {
    hide LogOk, CursorsOk, NextEntries, DataSize, SkipTo, HasNext;
  }

  lemma PageIs(c: Limits, s: Sys)
    requires SysOk(c, s) && s.rd.None? && s.raw.log.tail.snap.None?
    ensures LogOk(s.raw.log) && CursorsOk(s.raw.log)
    ensures Abs(s.raw.log).base <= Top(s) && Min(s.raw.log.committed, s.raw.log.persisted) <= Last(Abs(s.raw.log))
    ensures var next := NextEntries(s.raw.log, s.raw.since, Some(c.pageSize), c.w);
            PageAfter(c, s.raw.log, Top(s)) == if next.Some? then next.value else []
  {
    hide Abs, HandedOk, RecordsOk, ReadyOk, UncommittedOk, PendingOk, LimitSize, Range, SnapAfter;
  }

  lemma SnapshotNoPage(c: Limits, s: Sys)
    requires SysOk(c, s) && s.raw.log.tail.snap.Some? && !HasNext(s.raw.log, s.raw.log.tail.snap.value.index)
    ensures LogOk(s.raw.log) && CursorsOk(s.raw.log)
    ensures NextEntries(s.raw.log, s.raw.log.tail.snap.value.index, Some(c.pageSize), c.w) == None
  {
    IndexesRefine(s.raw.log);
    hide StreamOk, HandedOk, RecordsOk, ReadyOk, UncommittedOk, PendingOk, LimitSize, Range, SnapAfter;
  }

  // ----- winning

  /** A node that wins records the end of its log: as the tail that does not count, and as the index up to which
      a membership change may be unapplied. It counts nothing yet. */
  lemma WinSays(c: Limits, run: seq<Sys>, events: seq<Event>, i: nat)
    requires PipelineSafety.IsRun(c, run, events) && i < |events| && events[i].Win?
    ensures LogOk(run[i].raw.log)
    ensures var r, r' := run[i].raw, run[i + 1].raw;
            var last := Last(Abs(r.log));
            && r'.leader && r'.tailIndex == last && r'.pendingConf == last && r'.uncommitted == 0
            && r'.term == r.term && r'.since == r.since && r'.records == r.records
            && r'.log.committed == r.log.committed && r'.log.applied == r.log.applied && r'.log.persisted == r.log.persisted
  {
    hide *;
    RunStep(c, run, events, i);
    WonRaw(c, run[i], run[i + 1]);
  }

  lemma WonRaw(c: Limits, s: Sys, s': Sys)
    requires LogOk(s.raw.log) && CursorsOk(s.raw.log) && Happens(c, s, Win) == Some(s')
    ensures var r, r' := s.raw, s'.raw;
            var last := Last(Abs(r.log));
            && r'.leader && r'.tailIndex == last && r'.pendingConf == last && r'.uncommitted == 0
            && r'.term == r.term && r'.since == r.since && r'.records == r.records
            && r'.log.committed == r.log.committed && r'.log.applied == r.log.applied && r'.log.persisted == r.log.persisted
  {
    var r, last := s.raw, LastIndex(s.raw.log);
    IndexesRefine(r.log);
    var r1 := r.(leader := true, uncommitted := 0, tailIndex := last, pendingConf := last);
    OneAppended(c, r1, EMPTY);
    hide LogOk, CursorsOk, Abs;
    assert DataSize([EMPTY][1..]) == 0;
    assert Increase(c, r1, [EMPTY]).Some? && Increase(c, r1, [EMPTY]).value.uncommitted == 0;
    AppendEntryGood(c, r1, [EMPTY]);
    hide AppendEntry, Increase;
  }

  // ----- applying

  /** Whether applying up to `index` makes a leader propose to leave the joint configuration: it is to leave by
      itself, and the change that entered it is among what was just applied. */
  predicate LeavesNow(r: Raw, index: nat, autoLeave: bool) {
    autoLeave && r.leader && r.log.applied <= r.pendingConf <= index
  }

  /** Reporting what was applied moves the applied index there, and does nothing else, unless the node is to
      leave a joint configuration now: then the change that leaves it is appended and recorded. */
  lemma ApplySays(c: Limits, run: seq<Sys>, events: seq<Event>, i: nat)
    requires PipelineSafety.IsRun(c, run, events) && i < |events| && events[i].Applied?
    ensures LogOk(run[i].raw.log) && LogOk(run[i + 1].raw.log)
    ensures var r, r', index := run[i].raw, run[i + 1].raw, events[i].index;
            && r'.log.applied == (if index == 0 then r.log.applied else index)
            && (!LeavesNow(r, index, events[i].autoLeave) ==> r' == r.(log := r.log.(applied := r'.log.applied)))
            && (LeavesNow(r, index, events[i].autoLeave) ==>
                  && r'.pendingConf == Last(Abs(r.log)) + 1
                  && EndsWith(Abs(r'.log), Abs(r.log), Entry(EntryConfChangeV2, r.term, Last(Abs(r.log)) + 1, [], [])))
  {
    hide *;
    RunStep(c, run, events, i);
    RunOk(c, run, events, i);
    SysOkLog(c, run[i]);
    AppliedSame(c, run[i], events[i]);
    ApplyIs(c, run[i], run[i + 1], events[i]);
    AppliedLog(c, run[i].raw, events[i].index, events[i].autoLeave);
  }

  lemma RunStep(c: Limits, run: seq<Sys>, events: seq<Event>, i: nat)
    requires PipelineSafety.IsRun(c, run, events) && i < |events|
    ensures i + 1 < |run| && LogOk(run[i].raw.log) && CursorsOk(run[i].raw.log)
    ensures CanHappen(run[i], events[i]) && Happens(c, run[i], events[i]) == Some(run[i + 1])
  {
    hide CanHappen, Happens, LogOk, CursorsOk, Init;
  }

  lemma ApplyIs(c: Limits, s: Sys, s': Sys, e: Event)
    requires LogOk(s.raw.log) && CursorsOk(s.raw.log) && e.Applied? && Happens(c, s, e) == Some(s')
    ensures CommitApply(c, s.raw, e.index, e.autoLeave) == Some(s'.raw)
  {
    hide LogOk, CursorsOk, CommitApply;
  }

  lemma AppliedLog(c: Limits, r: Raw, index: nat, autoLeave: bool)
    requires LogOk(r.log) && CommitApply(c, r, index, autoLeave).Some? && AppliedTo(r.log, index).Done?
    requires var l := AppliedTo(r.log, index).state; LogOk(l) && CursorsOk(l) && Abs(l) == Abs(r.log)
    ensures var r' := CommitApply(c, r, index, autoLeave).value;
            && LogOk(r'.log)
            && r'.log.applied == (if index == 0 then r.log.applied else index)
            && (!LeavesNow(r, index, autoLeave) ==> r' == r.(log := r.log.(applied := r'.log.applied)))
            && (LeavesNow(r, index, autoLeave) ==>
                  && r'.pendingConf == Last(Abs(r.log)) + 1
                  && EndsWith(Abs(r'.log), Abs(r.log), Entry(EntryConfChangeV2, r.term, Last(Abs(r.log)) + 1, [], [])))
  {
    hide *;
    AppliesExactly(r.log, index);
    var l := AppliedTo(r.log, index).state;
    if LeavesNow(r, index, autoLeave) {
      LeftIs(c, r.(log := l));
    }
    ApplyParts(c, r, index, autoLeave, l);
  }

  lemma ApplyParts(c: Limits, r: Raw, index: nat, autoLeave: bool, l: LogState)
    requires LogOk(r.log) && AppliedTo(r.log, index) == Done(l) && CommitApply(c, r, index, autoLeave).Some? && LogOk(l)
    ensures var r' := CommitApply(c, r, index, autoLeave).value;
            if LeavesNow(r, index, autoLeave) then
              var o := AppendEntry(c, r.(log := l), [LEAVE_JOINT]);
              o.Some? && LogOk(o.value.log) ==> r' == o.value.(pendingConf := LastIndex(o.value.log))
            else r' == r.(log := l)
  {
    hide LogOk, AppliedTo, AppendEntry, LastIndex;
  }

  /** The log `g'` is `g` with the entry behind it. */
  predicate EndsWith(g': Log, g: Log, e: Entry) {
    g' == g.(entries := g.entries + [e])
  }

  lemma LeftIs(c: Limits, r: Raw)
    requires LogOk(r.log) && CursorsOk(r.log)
    ensures AppendEntry(c, r, [LEAVE_JOINT]).Some?
    ensures var l := AppendEntry(c, r, [LEAVE_JOINT]).value.log;
            && LogOk(l) && LastIndex(l) == Last(Abs(r.log)) + 1 && l.applied == r.log.applied
            && EndsWith(Abs(l), Abs(r.log), Entry(EntryConfChangeV2, r.term, Last(Abs(r.log)) + 1, [], []))
  {
    OneAppended(c, r, LEAVE_JOINT);
    var l := AppendEntry(c, r, [LEAVE_JOINT]).value.log;
    IndexesRefine(l);
    hide LogOk, CursorsOk, Abs;
    AppendEntryGood(c, r, [LEAVE_JOINT]);
    hide AppendEntry;
  }
}
