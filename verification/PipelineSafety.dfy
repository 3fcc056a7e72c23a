/** The properties of the ready pipeline, over every run. */
module PipelineSafety {
  import opened Types
  import opened LogModel
  import opened LogRuns
  import opened Pipeline
  import opened Screening
  import opened PipelineRuns
  import opened PipelineKeeps
  import opened PipelineEvents
  import opened ReadyEvents

  /** Whatever happens fails no assertion and keeps the invariant. */
  lemma EventGood(c: Limits, s: Sys, e: Event)
    requires SysOk(c, s) && CanHappen(s, e)
    ensures Good(c, Happens(c, s, e))
  {
    hide SysOk, CanHappen, Happens, Good;
    match e
    case Receive(_, _, _) => ReceiveGood(c, s, e);
    case Win => WinGood(c, s);
    case Resign(_, _) => ResignGood(c, s, e);
    case LeaderCommit(mci) => LeaderCommitGood(c, s, mci);
    case ProposeBatch(joint, ps) => ProposeGood(c, s, joint, ps);
    case TakeReady => TakeReadyGood(c, s);
    case Write => WriteGood(c, s);
    case AdvanceAsync => AdvanceAsyncGood(c, s);
    case AdvanceSync(mci) => AdvanceSyncGood(c, s, mci);
    case Persisted(number, mci) => PersistedGood(c, s, number, mci);
    case Applied(index, autoLeave) => AppliedGood(c, s, index, autoLeave);
  }

  ghost predicate IsRun(c: Limits, run: seq<Sys>, events: seq<Event>) {
    && |run| == |events| + 1
    && Init(run[0])
    && forall i :: 0 <= i < |events| ==>
         && LogOk(run[i].raw.log) && CursorsOk(run[i].raw.log)
         && CanHappen(run[i], events[i])
         && Happens(c, run[i], events[i]) == Some(run[i + 1])
  }

  lemma {:induction false} RunOk(c: Limits, run: seq<Sys>, events: seq<Event>, i: nat)
    requires IsRun(c, run, events) && i < |run|
    ensures SysOk(c, run[i])
  {
    hide SysOk, CanHappen, Happens, Init;
    if i == 0 {
      InitOk(c, run[0]);
    } else {
      RunOk(c, run, events, i - 1);
      SysOkLog(c, run[i - 1]);
      assert Happens(c, run[i - 1], events[i - 1]) == Some(run[i]);
      EventGood(c, run[i - 1], events[i - 1]);
    }
  }

  lemma SysOkLog(c: Limits, s: Sys)
    requires SysOk(c, s)
    ensures LogOk(s.raw.log) && CursorsOk(s.raw.log)
  {
  }

  /** No assertion of the pipeline fails in any run: those on the ready's number, on the index the next
      entries start from, on the commit index and the hard state, on what a new leader left unpersisted,
      and on the size counter's underflow. */
  lemma NothingFails(c: Limits, run: seq<Sys>, events: seq<Event>, i: nat, e: Event)
    requires IsRun(c, run, events) && i < |run| && LogOk(run[i].raw.log) && CursorsOk(run[i].raw.log)
    requires CanHappen(run[i], e)
    ensures Happens(c, run[i], e).Some?
  {
    hide SysOk, CanHappen, Happens;
    RunOk(c, run, events, i);
    EventGood(c, run[i], e);
  }

  lemma HandedOnlyGrows(c: Limits, s: Sys, e: Event)
    requires LogOk(s.raw.log) && CursorsOk(s.raw.log) && Happens(c, s, e).Some?
    ensures s.handed <= Happens(c, s, e).value.handed
  {
    hide LogOk, CursorsOk, Do, Lead, MaybeCommit, Propose, MakeReady, WriteAll, CommitReady, AdvanceAppend, OnPersist, CommitApply;
  }

  lemma {:induction false} HandedIsForever(c: Limits, run: seq<Sys>, events: seq<Event>, i: nat, j: nat)
    requires IsRun(c, run, events) && i <= j < |run|
    ensures run[i].handed <= run[j].handed
    decreases j - i
  {
    hide LogOk, CursorsOk, CanHappen, Happens;
    if i < j {
      HandedIsForever(c, run, events, i, j - 1);
      assert Happens(c, run[j - 1], events[j - 1]) == Some(run[j]);
      HandedOnlyGrows(c, run[j - 1], events[j - 1]);
    }
  }

  /** The committed entries handed out over all readies are consecutive, without gap or repeat, from the
      last snapshot on; each was committed and persisted; and at any later time the log still has the
      entry that was handed out, unless a snapshot has replaced it. */
  lemma ReadyStream(c: Limits, run: seq<Sys>, events: seq<Event>, i: nat, j: nat)
    requires IsRun(c, run, events) && i <= j < |run|
    ensures run[i].handed <= run[j].handed
    ensures LogOk(run[i].raw.log) && LogOk(run[j].raw.log)
    ensures var l, l' := run[i].raw.log, run[j].raw.log;
            && HandedOk(Abs(l), run[i].handed, run[i].raw.since, run[i].floor, Min(l.committed, l.persisted))
            && forall k :: 0 <= k < |run[i].handed| && Abs(l').base < run[i].handed[k].index <= Last(Abs(l')) ==>
                 At(Abs(l'), run[i].handed[k].index) == run[i].handed[k]
  {
    hide LogOk, CursorsOk, CanHappen, Happens, Abs, Last;
    RunOk(c, run, events, i);
    RunOk(c, run, events, j);
    HandedIsForever(c, run, events, i, j);
    forall k | 0 <= k < |run[i].handed|
      ensures run[i].handed[k] == run[j].handed[k]
    {
    }
  }

  /** Paging loses nothing: a page is empty only when everything committed and persisted is handed out. */
  lemma EmptyPageMeansDone(c: Limits, run: seq<Sys>, events: seq<Event>, i: nat)
    requires IsRun(c, run, events) && i + 1 < |run| && (events[i].AdvanceSync? || events[i].TakeReady?)
    requires run[i + 1].handed == run[i].handed && run[i + 1].raw.log.tail.snap.None?
    ensures var l := run[i + 1].raw.log; Top(run[i + 1]) >= Min(l.committed, l.persisted)
  {
    hide LogOk, CursorsOk, CanHappen, SysOk, Lead, Propose, WriteAll, CommitApply, Do;
    RunOk(c, run, events, i);
    var s, s' := run[i], run[i + 1];
    assert Happens(c, s, events[i]) == Some(s');
    if events[i].TakeReady? {
      ReadyPage(c, s, s');
    } else {
      AdvancePage(c, s, s', events[i].mci);
    }
  }

  lemma ReadyPage(c: Limits, s: Sys, s': Sys)
    requires SysOk(c, s) && CanHappen(s, TakeReady) && Happens(c, s, TakeReady) == Some(s')
    requires s'.handed == s.handed && s'.raw.log.tail.snap.None?
    ensures Top(s') >= Min(s'.raw.log.committed, s'.raw.log.persisted)
  {
    hide LogOk, CursorsOk, Abs, StreamOk, RecordsOk, ReadyOk, UncommittedOk, PendingOk, SnapAfter, LightReady, Drained, PastSnapshot, MayHandOut;
    var s0 := s.(raw := s.raw.(maxNumber := s.raw.maxNumber + 1));
    NumberedGood(c, s, s0);
    DrainGood(c, s0);
    var s1 := s0.(raw := Drained(s0.raw).value);
    DrainedUncommitted(c, s0, s1);
    PastSnapshotGood(c, s1);
    var r2 := PastSnapshot(s1.raw).value;
    LightSound(c, r2, s.handed, NewFloor(s1));
    var r3, es := LightReady(c, r2).value.0, LightReady(c, r2).value.1;
    MakeReadyIs(c, s.raw, s1.raw, r2, r3, es);
    hide MakeReady;
    assert |s.handed + es| == |s.handed| + |es|;
  }

  lemma AdvancePage(c: Limits, s: Sys, s': Sys, mci: nat)
    requires SysOk(c, s) && CanHappen(s, AdvanceSync(mci)) && Happens(c, s, AdvanceSync(mci)) == Some(s')
    requires s'.handed == s.handed
    ensures Top(s') >= Min(s'.raw.log.committed, s'.raw.log.persisted)
  {
    hide LogOk, CursorsOk, Abs, StreamOk, RecordsOk, CommitReady, OnPersist, LightReady, UncommittedOk, PendingOk, Advances;
    CommitReadyIs(s);
    var r1 := CommitReady(s.raw, s.rd.value).value;
    var s1 := s.(raw := r1, rd := None, written := false);
    ReportedOk(c, s, s1);
    OnPersistSound(c, s1, r1.maxNumber, mci);
    var s2 := s1.(raw := OnPersist(r1, r1.maxNumber, mci).value);
    PageSound(c, s2);
    var es := LightReady(c, s2.raw).value.1;
    assert |s.handed + es| == |s.handed| + |es|;
  }

  /** `advance` may apply everything that was handed out before it: nothing there is unpersisted any more. */
  lemma AdvanceMayApply(c: Limits, run: seq<Sys>, events: seq<Event>, i: nat, autoLeave: bool)
    requires IsRun(c, run, events) && i + 1 < |run| && events[i].AdvanceSync?
    ensures LogOk(run[i + 1].raw.log) && CanHappen(run[i + 1], Applied(run[i].raw.since, autoLeave))
  {
    hide LogOk, CursorsOk, Abs, RecordsOk, ReadyOk, UncommittedOk, PendingOk, HandedOk, AdvanceAppend;
    var s, s' := run[i], run[i + 1];
    RunOk(c, run, events, i);
    RunOk(c, run, events, i + 1);
    assert CanHappen(s, events[i]) && Happens(c, s, events[i]) == Some(s');
    AdvanceSyncGood(c, s, events[i].mci);
    assert SnapAfter([], None) == None;
    StreamSnap(s);
  }

  /** On every leader with a finite limit, the counted size is that of the data after both the tail it
      was elected with and what was handed out. */
  lemma UncommittedConserved(c: Limits, run: seq<Sys>, events: seq<Event>, i: nat)
    requires IsRun(c, run, events) && i < |run|
    requires run[i].raw.leader && c.maxUncommitted != NO_LIMIT
    ensures LogOk(run[i].raw.log)
    ensures var r := run[i].raw;
            && Abs(r.log).base <= Max(r.tailIndex, r.since) <= Last(Abs(r.log))
            && r.uncommitted == DataAfter(Abs(r.log), Max(r.tailIndex, r.since))
  {
    hide LogOk, CursorsOk, Abs, CanHappen, Happens, DataAfter, StreamOk, RecordsOk, ReadyOk, PendingOk;
    RunOk(c, run, events, i);
  }

  /** The size of a batch's data, as proposed. */
  function ProposedData(ps: seq<Proposal>): nat {
    if ps == [] then 0 else |ps[0].entry.data| + ProposedData(ps[1..])
  }

  /** Screening takes data away, if anything. */
  lemma {:induction false} ScreenShrinks(r: Raw, joint: bool, ps: seq<Proposal>, next: nat)
    ensures DataSize(Screen(r, joint, ps, next).1) <= ProposedData(ps)
    decreases |ps|
  {
    if ps != [] {
      var passes := IsConfChange(ps[0].entry) && Accepts(r, joint, ps[0]);
      var r1 := if passes then r.(pendingConf := next) else r;
      var es := Screen(r, joint, ps, next).1;
      ScreenShrinks(r1, joint, ps[1..], next + 1);
      assert es[1..] == Screen(r1, joint, ps[1..], next + 1).1;
    }
  }

  /** What a leader's proposals have left open in its log: the data after both the tail it was elected
      with and what was handed out. */
  function OpenData(r: Raw): nat
    requires LogOk(r.log) && Abs(r.log).base <= Max(r.tailIndex, r.since) <= Last(Abs(r.log))
  {
    DataAfter(Abs(r.log), Max(r.tailIndex, r.since))
  }

  /** In every run a readable batch is appended as a whole unless it has data, some data is open in the
      leader's log, and both together pass the limit; then nothing is appended. */
  lemma BatchAppendedExactly(c: Limits, run: seq<Sys>, events: seq<Event>, i: nat, joint: bool, ps: seq<Proposal>)
    requires IsRun(c, run, events) && i < |run| && run[i].raw.leader && Readable(ps) == |ps|
    ensures LogOk(run[i].raw.log) && Abs(run[i].raw.log).base <= Max(run[i].raw.tailIndex, run[i].raw.since) <= Last(Abs(run[i].raw.log))
    ensures var r := run[i].raw;
            var es := Screened(r, joint, ps).1;
            var l' := Propose(c, r, joint, ps).log;
            && LogOk(l')
            && Abs(l') ==
               if c.maxUncommitted != NO_LIMIT && DataSize(es) > 0 && OpenData(r) > 0 && OpenData(r) + DataSize(es) > c.maxUncommitted
               then Abs(r.log) else Abs(r.log).(entries := Abs(r.log).entries + Stamp(es, r.term, Last(Abs(r.log))))
  {
    hide SysOk, CanHappen, Happens, Init, Screened, Readable, DataSize, DataAfter, AppendEntry;
    RunOk(c, run, events, i);
    LeaderCounts(c, run[i]);
    SysOkLog(c, run[i]);
    var r := run[i].raw;
    IndexesRefine(r.log);
    var r1, es := Screened(r, joint, ps).0, Screened(r, joint, ps).1;
    hide LogOk, CursorsOk, Abs;
    if Increase(c, r1, es).Some? {
      AppendEntryGood(c, r1, es);
    } else {
      RefusedIs(c, r, joint, ps);
    }
  }

  /** What a leader's log holds after a batch, in every run: behind what it held, the entries of a readable
      batch, of which at most one membership change survives, the first that fits if none is pending; it is
      recorded at its index. A batch that is too big, or cannot be read, leaves the log as it was. */
  lemma BatchSurvives(c: Limits, run: seq<Sys>, events: seq<Event>, i: nat, joint: bool, ps: seq<Proposal>, n: nat)
      returns (es: seq<Entry>, k: nat)
    requires IsRun(c, run, events) && i < |run| && run[i].raw.leader && ReadableTo(ps, n)
    ensures LogOk(run[i].raw.log) && Abs(run[i].raw.log).base <= Max(run[i].raw.tailIndex, run[i].raw.since) <= Last(Abs(run[i].raw.log))
    ensures ScreenedAs(run[i].raw.pendingConf <= run[i].raw.log.applied, joint, ps[..n], es, k)
    ensures var r := run[i].raw;
            var r' := Propose(c, r, joint, ps);
            var open := OpenData(r);
            && LogOk(r'.log)
            && r'.pendingConf == (if k < n then Last(Abs(r.log)) + 1 + k else r.pendingConf)
            && if n < |ps| || (c.maxUncommitted != NO_LIMIT && DataSize(es) > 0 && open > 0 && open + DataSize(es) > c.maxUncommitted)
               then Abs(r'.log) == Abs(r.log) else Appended(Abs(r.log), es, r.term, Abs(r'.log))
  {
    hide SysOk, CanHappen, Happens, Init, Screened, DataSize, DataAfter, AppendEntry, ScreenedAs;
    RunOk(c, run, events, i);
    LeaderCounts(c, run[i]);
    SysOkLog(c, run[i]);
    var r := run[i].raw;
    AppliedInLog(r.log);
    ReadableIs(ps, n);
    k := ScreenedIs(r, joint, ps, n);
    es := Screened(r, joint, ps).1;
    StampAppends(Abs(r.log), es, r.term);
    hide LogOk, CursorsOk, Abs, OpenData;
    if n < |ps| {
      RefusedIs(c, r, joint, ps);
    } else {
      BatchAppendedExactly(c, run, events, i, joint, ps);
      ProposedPending(c, r, joint, ps);
    }
  }

  lemma ProposedPending(c: Limits, r: Raw, joint: bool, ps: seq<Proposal>)
    requires LogOk(r.log) && CursorsOk(r.log) && Readable(ps) == |ps|
    ensures Propose(c, r, joint, ps).pendingConf == Screened(r, joint, ps).0.pendingConf
  {
    hide LogOk, CursorsOk, Screened, AppendEntry, Increase, Readable;
    var r1, es := Screened(r, joint, ps).0, Screened(r, joint, ps).1;
    if Increase(c, r1, es).Some? {
      AppendEntryGood(c, r1, es);
    } else {
      RefusedIs(c, r, joint, ps);
    }
  }

  lemma LeaderCounts(c: Limits, s: Sys)
    requires SysOk(c, s) && s.raw.leader
    ensures LogOk(s.raw.log) && Abs(s.raw.log).base <= Max(s.raw.tailIndex, s.raw.since) <= Last(Abs(s.raw.log))
    ensures c.maxUncommitted != NO_LIMIT ==> s.raw.uncommitted == OpenData(s.raw)
  {
    hide LogOk, CursorsOk, Abs, StreamOk, RecordsOk, ReadyOk, PendingOk, DataAfter;
  }

  /** So a batch is never refused while nothing is open, nor while its data fits what the limit leaves. */
  lemma FittingBatchAppended(c: Limits, run: seq<Sys>, events: seq<Event>, i: nat, joint: bool, ps: seq<Proposal>)
    requires IsRun(c, run, events) && i < |run| && run[i].raw.leader && Readable(ps) == |ps|
    requires LogOk(run[i].raw.log) && Abs(run[i].raw.log).base <= Max(run[i].raw.tailIndex, run[i].raw.since) <= Last(Abs(run[i].raw.log))
    requires OpenData(run[i].raw) == 0 || ProposedData(ps) == 0 || OpenData(run[i].raw) + ProposedData(ps) <= c.maxUncommitted
    ensures var l' := Propose(c, run[i].raw, joint, ps).log;
            LogOk(l') && Last(Abs(l')) == Last(Abs(run[i].raw.log)) + |ps|
  {
    hide IsRun, LogOk, Abs, OpenData, DataSize, Propose, Screened, ProposedData, Stamp;
    BatchAppendedExactly(c, run, events, i, joint, ps);
    ScreenedShrinks(run[i].raw, joint, ps);
  }

  lemma ScreenedShrinks(r: Raw, joint: bool, ps: seq<Proposal>)
    requires LogOk(r.log) && Readable(ps) == |ps|
    ensures DataSize(Screened(r, joint, ps).1) <= ProposedData(ps) && |Screened(r, joint, ps).1| == |ps|
  {
    hide LogOk, Screen;
    IndexesRefine(r.log);
    ScreenShrinks(r, joint, ps, LastIndex(r.log) + 1);
    assert ps[..Readable(ps)] == ps;
  }

  /** The empty entry of a new leader and the automatic change out of a joint configuration are always
      appended, whatever the limit. */
  lemma EmptyEntriesAppended(c: Limits, run: seq<Sys>, events: seq<Event>, i: nat)
    requires IsRun(c, run, events) && i < |events| && LogOk(run[i].raw.log) && LogOk(run[i + 1].raw.log)
    requires events[i].Win? || (events[i].Applied? && events[i].autoLeave && run[i].raw.leader
                                && run[i].raw.log.applied <= run[i].raw.pendingConf <= events[i].index)
    ensures var g, g' := Abs(run[i].raw.log), Abs(run[i + 1].raw.log);
            var e := if events[i].Win? then EMPTY else LEAVE_JOINT;
            g' == g.(entries := g.entries + [e.(term := run[i].raw.term, index := Last(g) + 1)])
  {
    hide SysOk, CanHappen, LogOk, CursorsOk, Abs, AppendEntry;
    RunOk(c, run, events, i);
    SysOkLog(c, run[i]);
    var r := run[i].raw;
    IndexesRefine(r.log);
    assert Happens(c, run[i], events[i]) == Some(run[i + 1]);
    if events[i].Win? {
      var last := LastIndex(r.log);
      OneAppended(c, r.(leader := true, uncommitted := 0, tailIndex := last, pendingConf := last), EMPTY);
    } else {
      var l := AppliedTo(r.log, events[i].index).state;
      AppliedSame(c, run[i], events[i]);
      OneAppended(c, r.(log := l), LEAVE_JOINT);
    }
  }

  lemma AppliedSame(c: Limits, s: Sys, e: Event)
    requires SysOk(c, s) && e.Applied? && CanHappen(s, e)
    ensures AppliedTo(s.raw.log, e.index).Done?
    ensures var l := AppliedTo(s.raw.log, e.index).state;
            LogOk(l) && CursorsOk(l) && Abs(l) == Abs(s.raw.log)
  {
    hide Abs, StreamOk, RecordsOk, ReadyOk, UncommittedOk, PendingOk;
    LogOkSame(s.raw.log, AppliedTo(s.raw.log, e.index).state);
    hide LogOk;
  }

  lemma OneAppended(c: Limits, r: Raw, e: Entry)
    requires LogOk(r.log) && CursorsOk(r.log) && e.data == []
    ensures AppendEntry(c, r, [e]).Some?
    ensures var l := AppendEntry(c, r, [e]).value.log;
            LogOk(l) && Abs(l) == Abs(r.log).(entries := Abs(r.log).entries + [e.(term := r.term, index := Last(Abs(r.log)) + 1)])
  {
    hide LogOk, CursorsOk, Abs;
    assert DataSize([e][1..]) == 0;
    assert Increase(c, r, [e]).Some?;
    AppendEntryGood(c, r, [e]);
    assert Stamp([e], r.term, Last(Abs(r.log))) == [e.(term := r.term, index := Last(Abs(r.log)) + 1)];
  }

  /** On every leader an unapplied membership change lies at or before the recorded index, and one of the
      leader's own term is the only unapplied one in its log. */
  lemma OnePendingChange(c: Limits, run: seq<Sys>, events: seq<Event>, n: nat, i: nat, j: nat)
    requires IsRun(c, run, events) && n < |run| && run[n].raw.leader && LogOk(run[n].raw.log)
    requires Unapplied(run[n].raw, i) && Unapplied(run[n].raw, j)
    ensures i <= run[n].raw.pendingConf
    ensures At(Abs(run[n].raw.log), i).term == run[n].raw.term ==> i == j
  {
    hide LogOk, CursorsOk, CanHappen, Happens, StreamOk, RecordsOk, ReadyOk, UncommittedOk, Unapplied;
    RunOk(c, run, events, n);
  }
}
