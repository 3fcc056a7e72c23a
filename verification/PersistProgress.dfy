/** What is written becomes persisted, and what is committed is handed out, over every run
    (raft-rs/src/raw_node.rs, raft-rs/src/raft_log.rs). */
module PersistProgress {
  import opened Types
  import opened LogModel
  import opened LogRuns
  import opened Pipeline
  import opened PipelineRuns
  import opened PipelineKeeps
  import opened PipelineEvents
  import opened ReadyEvents
  import opened PipelineSafety
  import opened CursorAnswers
  import opened PipelineAnswers

  // ----- what the records say was written

  /** What all the records together report. */
  function Final(records: seq<Record>, p: Popped): Popped
    decreases |records|
  {
    if records == [] then p else Final(records[1..], PopOne(records[0], p))
  }

  predicate SameReport(p: Popped, q: Popped) {
    p.snap == q.snap && p.index == q.index && p.term == q.term
  }

  const NOTHING: Popped := Popped([], 0, 0, 0)

  predicate Bare(x: Record) {
    x.last.None? && x.snap.None?
  }

  lemma {:induction false} FinalSame(records: seq<Record>, p: Popped, q: Popped)
    requires SameReport(p, q)
    ensures SameReport(Final(records, p), Final(records, q))
    decreases |records|
  {
    if records != [] {
      FinalSame(records[1..], PopOne(records[0], p), PopOne(records[0], q));
    }
  }

  lemma {:induction false} FinalBare(records: seq<Record>, p: Popped)
    requires forall x :: x in records ==> Bare(x)
    ensures Final(records, p) == p
    decreases |records|
  {
    if records != [] {
      assert Bare(records[0]);
      FinalBare(records[1..], p);
    }
  }

  lemma {:induction false} FinalAppend(records: seq<Record>, x: Record, p: Popped)
    ensures Final(records + [x], p) == PopOne(x, Final(records, p))
    decreases |records|
  {
    if records == [] {
      assert ([] + [x])[1..] == [];
    } else {
      assert (records + [x])[1..] == records[1..] + [x];
      FinalAppend(records[1..], x, PopOne(records[0], p));
    }
  }

  /** Popping takes a part of the report and leaves the rest. */
  lemma {:induction false} FinalPop(records: seq<Record>, number: nat, p: Popped)
    ensures var q := Pop(records, number, p); SameReport(Final(records, p), Final(q.rest, q))
    decreases |records|
  {
    if records != [] && records[0].number <= number {
      FinalPop(records[1..], number, PopOne(records[0], p));
    } else {
      FinalSame(records, p, p.(rest := records));
    }
  }

  predicate Positive(records: seq<Record>) {
    forall k :: 0 <= k < |records| && records[k].last.Some? ==> records[k].last.value.0 > 0
  }

  /** Unless they are bare, the rest alone decides the report: about an entry, or about a snapshot. */
  lemma {:induction false} RestDecides(records: seq<Record>, p: Popped)
    requires Positive(records) && exists x :: x in records && !Bare(x)
    ensures var a, b := Final(records, p), Final(records, NOTHING);
            a.index == b.index && a.term == b.term && (a.index == 0 ==> a.snap == b.snap)
    decreases |records|
  {
    var p1, z1 := PopOne(records[0], p), PopOne(records[0], NOTHING);
    if exists x :: x in records[1..] && !Bare(x) {
      RestDecides(records[1..], p1);
      RestDecides(records[1..], z1);
    } else {
      FinalBare(records[1..], p1);
      FinalBare(records[1..], z1);
      assert !Bare(records[0]);
    }
  }

  // ----- the log's end is persisted or reported

  predicate TailEmpty(l: LogState) {
    l.tail.snap.None? && l.tail.entries == []
  }

  /** The report is about the end of the log. */
  predicate PointsToEnd(p: Popped, g: Log) {
    if p.index != 0 then p.index == Last(g) && p.term == TermOf(g, p.index) else p.snap == Last(g)
  }

  /** When everything has left the tail, the end of the log is persisted, or the records report it. */
  ghost predicate Reported(r: Raw)
    requires LogOk(r.log)
  {
    && Positive(r.records)
    && (TailEmpty(r.log) ==> r.log.persisted == Last(Abs(r.log)) || PointsToEnd(Final(r.records, NOTHING), Abs(r.log)))
  }

  /** The tail after an event that neither takes nor reports a ready is as before, or it holds something. */
  ghost predicate FillsOrKeeps(r: Raw, r': Raw) {
    r'.records == r.records && (TailEmpty(r'.log) ==> r'.log.tail == r.log.tail && r'.log.store == r.log.store && r'.log.persisted == r.log.persisted)
  }

  lemma FillsKeepsReported(r: Raw, r': Raw)
    requires LogOk(r.log) && LogOk(r'.log) && Reported(r) && FillsOrKeeps(r, r')
    ensures Reported(r')
  {
    hide Final, PointsToEnd;
    if TailEmpty(r'.log) {
      LogOkSame(r.log, r'.log);
    }
    hide LogOk, Abs;
  }

  lemma AppendFills(l: LogState, ents: seq<Entry>)
    requires Append(l, ents).Done?
    ensures ents != [] ==> Append(l, ents).state.tail.entries != []
    ensures ents == [] ==> Append(l, ents).state == l
    ensures Append(l, ents).state == l.(tail := Append(l, ents).state.tail)
  {
  }

  lemma ReceiveFills(l: LogState, op: LogOp)
    requires LogOk(l) && CursorsOk(l) && Enabled(l, op) && Do(l, op).Done?
    requires op.TakeAppend? || op.Commit? || op.CommitAt? || op.RestoreFrom?
    ensures var l' := Do(l, op).state; TailEmpty(l') ==> l'.tail == l.tail && l'.store == l.store && l'.persisted == l.persisted
  {
    if op.TakeAppend? {
      var ci := FindConflict(l, op.ents);
      FindConflictBounds(l, op.idx, op.ents);
      hide LogOk, CursorsOk, Abs, FindConflict, MatchTerm;
      if MatchTerm(l, op.idx, op.term) && ci != 0 && AppendFrom(l, op.idx, ci, op.ents).Done? {
        TakenFills(l, op.idx, ci, op.ents);
      }
      hide AppendFrom;
    }
  }

  lemma TakenFills(l: LogState, idx: nat, ci: nat, ents: seq<Entry>)
    requires idx < ci <= idx + |ents| && AppendFrom(l, idx, ci, ents).Done?
    ensures AppendFrom(l, idx, ci, ents).state.tail.entries != []
  {
    AppendFills(l, ents[ci - idx - 1..]);
    hide Append;
  }

  lemma {:induction false} FindConflictBounds(l: LogState, idx: nat, ents: seq<Entry>)
    requires LogOk(l) && Indexed(ents, idx)
    ensures FindConflict(l, ents) == 0 || idx < FindConflict(l, ents) <= idx + |ents|
    decreases |ents|
  {
    hide MatchTerm;
    if ents != [] && MatchTerm(l, ents[0].index, ents[0].term) {
      IndexedSub(ents, idx, 1);
      FindConflictBounds(l, idx + 1, ents[1..]);
    }
  }

  // ----- the events that take and report no ready

  lemma AppendEntryFills(c: Limits, r: Raw, ents: seq<Entry>)
    requires LogOk(r.log) && AppendEntry(c, r, ents).Some?
    ensures FillsOrKeeps(r, AppendEntry(c, r, ents).value)
  {
    hide LogOk;
    AppendFills(Increase(c, r, ents).value.log, Stamp(ents, r.term, LastIndex(r.log)));
    hide Append;
  }

  lemma OtherFills(c: Limits, s: Sys, e: Event)
    requires SysOk(c, s) && CanHappen(s, e) && Happens(c, s, e).Some?
    requires e.Receive? || e.Win? || e.Resign? || e.LeaderCommit? || e.ProposeBatch? || e.Applied?
    ensures FillsOrKeeps(s.raw, Happens(c, s, e).value.raw)
  {
    var r := s.raw;
    SysOkLog(c, s);
    match e
    case Receive(op, term, vote) =>
      ReceiveFills(r.log, op);
      hide LogOk, CursorsOk, StreamOk, RecordsOk, ReadyOk, UncommittedOk, PendingOk, Do, Enabled, Abs;
    case Win =>
      var last := LastIndex(r.log);
      var r1 := r.(leader := true, uncommitted := 0, tailIndex := last, pendingConf := last);
      hide SysOk, LogOk, CursorsOk, CanHappen, AppendEntry, Abs, FillsOrKeeps;
      AppendEntryFills(c, r1, [EMPTY]);
      FillsVia(r, r1, Happens(c, s, e).value.raw);
    case Resign(_, _) =>
    case LeaderCommit(mci) =>
      hide SysOk, LogOk, CursorsOk, CanHappen, MatchTerm;
    case ProposeBatch(joint, ps) =>
      hide SysOk, LogOk, CursorsOk, CanHappen, Screened, AppendEntry, Abs, FillsOrKeeps, Readable;
      ProposeFills(c, r, joint, ps);
    case Applied(index, autoLeave) =>
      hide SysOk, LogOk, CursorsOk, CanHappen, AppendEntry, Abs, FillsOrKeeps, AppliedTo;
      ApplyFills(c, r, index, autoLeave);
  }

  lemma FillsVia(r: Raw, r1: Raw, r2: Raw)
    requires FillsOrKeeps(r1, r2) && r1.records == r.records
    requires r1.log.tail == r.log.tail && r1.log.store == r.log.store && r1.log.persisted == r.log.persisted
    ensures FillsOrKeeps(r, r2)
  {
  }

  lemma ProposeFills(c: Limits, r: Raw, joint: bool, ps: seq<Proposal>)
    requires LogOk(r.log)
    ensures FillsOrKeeps(r, Propose(c, r, joint, ps))
  {
    hide LogOk, AppendEntry, Readable, FillsOrKeeps, Screened;
    var r1, es := Screened(r, joint, ps).0, Screened(r, joint, ps).1;
    FillsRefl(r, r1);
    if AppendEntry(c, r1, es).Some? {
      AppendEntryFills(c, r1, es);
      FillsVia(r, r1, AppendEntry(c, r1, es).value);
    }
  }

  lemma FillsRefl(r: Raw, r1: Raw)
    requires r1.records == r.records && r1.log.tail == r.log.tail && r1.log.store == r.log.store && r1.log.persisted == r.log.persisted
    ensures FillsOrKeeps(r, r1)
  {
  }

  lemma ApplyFills(c: Limits, r: Raw, index: nat, autoLeave: bool)
    requires LogOk(r.log) && CommitApply(c, r, index, autoLeave).Some?
    ensures FillsOrKeeps(r, CommitApply(c, r, index, autoLeave).value)
  {
    AppliesExactly(r.log, index);
    var r1 := r.(log := AppliedTo(r.log, index).state);
    assert LogOk(r1.log);
    hide LogOk, AppendEntry, FillsOrKeeps;
    FillsRefl(r, r1);
    if AppendEntry(c, r1, [LEAVE_JOINT]).Some? {
      var r2 := AppendEntry(c, r1, [LEAVE_JOINT]).value;
      AppendEntryFills(c, r1, [LEAVE_JOINT]);
      FillsVia(r, r1, r2);
      FillsPending(r, r2);
    }
  }

  lemma FillsPending(r: Raw, r2: Raw)
    requires FillsOrKeeps(r, r2)
    ensures forall p :: FillsOrKeeps(r, r2.(pendingConf := p))
  {
  }

  // ----- taking, writing and reporting a ready

  /** Taking a ready records what the tail holds behind the other records, which a new leader may drop first. */
  lemma MadeRecord(c: Limits, r: Raw)
    requires LogOk(r.log) && CursorsOk(r.log) && MakeReady(c, r).Some?
    ensures var x := RecordOf(r, r.maxNumber + 1);
            var rs := MakeReady(c, r).value.0.records;
            rs == r.records + [x] || (rs == [x] && forall y :: y in r.records ==> Bare(y))
  {
    hide LogOk, CursorsOk, NextEntries, DataSize, SkipTo, HasNext;
    assert [] + [RecordOf(r, r.maxNumber + 1)] == [RecordOf(r, r.maxNumber + 1)];
  }

  lemma RecordPositive(r: Raw, number: nat)
    requires LogOk(r.log)
    ensures var x := RecordOf(r, number);
            && (x.last.Some? ==> x.last.value.0 > 0)
            && (TailEmpty(r.log) <==> Bare(x))
            && (!TailEmpty(r.log) ==> forall p :: PointsToEnd(PopOne(x, p), Abs(r.log)))
  {
    if r.log.tail.entries != [] {
      LastIsTail(r.log);
      assert Last(Abs(r.log)) > 0;
    }
  }

  lemma RecordAdded(r: Raw, r': Raw, number: nat)
    requires LogOk(r.log) && Reported(r) && r'.log == r.log
    requires r'.records == r.records + [RecordOf(r, number)]
             || (r'.records == [RecordOf(r, number)] && forall y :: y in r.records ==> Bare(y))
    ensures Reported(r')
  {
    var x := RecordOf(r, number);
    RecordPositive(r, number);
    hide LogOk, Abs, Final, PointsToEnd, RecordOf;
    if r'.records == r.records + [x] {
      FinalAppend(r.records, x, NOTHING);
    } else {
      FinalBare(r.records, NOTHING);
      FinalAppend([], x, NOTHING);
      assert [] + [x] == [x];
      FinalBare([], NOTHING);
    }
    BareAdds(x, Final(r.records, NOTHING));
    hide PopOne;
  }

  lemma BareAdds(x: Record, p: Popped)
    ensures Bare(x) ==> PopOne(x, p) == p
  {
  }

  lemma TakeIs(c: Limits, s: Sys)
    requires LogOk(s.raw.log) && CursorsOk(s.raw.log) && Happens(c, s, TakeReady).Some?
    ensures MakeReady(c, s.raw).Some? && Happens(c, s, TakeReady).value.raw == MakeReady(c, s.raw).value.0
  {
    hide LogOk, CursorsOk, MakeReady;
  }

  lemma TakeReported(c: Limits, s: Sys)
    requires SysOk(c, s) && Happens(c, s, TakeReady).Some? && Reported(s.raw)
    ensures LogOk(Happens(c, s, TakeReady).value.raw.log) && Reported(Happens(c, s, TakeReady).value.raw)
  {
    SysOkLog(c, s);
    hide *;
    TakeIs(c, s);
    MadeSameLog(c, s.raw);
    MadeRecord(c, s.raw);
    RecordAdded(s.raw, MakeReady(c, s.raw).value.0, s.raw.maxNumber + 1);
  }

  lemma WriteReported(c: Limits, s: Sys)
    requires SysOk(c, s) && CanHappen(s, Write) && Happens(c, s, Write).Some? && Reported(s.raw)
    ensures LogOk(Happens(c, s, Write).value.raw.log) && Reported(Happens(c, s, Write).value.raw)
  {
    SysOkLog(c, s);
    WriteAllSound(s.raw.log);
    hide LogOk, CursorsOk, Abs, StreamOk, RecordsOk, UncommittedOk, PendingOk, WriteAll, Stored, Final, PointsToEnd, Positive, Advances;
  }

  lemma CommitReported(c: Limits, s: Sys)
    requires SysOk(c, s) && s.written && Reported(s.raw) && CommitReady(s.raw, s.rd.value).Some?
    ensures var r' := CommitReady(s.raw, s.rd.value).value; LogOk(r'.log) && Reported(r')
  {
    var r, r' := s.raw, CommitReady(s.raw, s.rd.value).value;
    SysOkLog(c, s);
    CommitReadyIs(s);
    RecordPositive(r, r.maxNumber);
    var k := |r.records| - 1;
    assert r.records != [] && r.records[k] == RecordOf(r, r.maxNumber);
    FinalAppend(r.records[..k], r.records[k], NOTHING);
    assert r.records[..k] + [r.records[k]] == r.records;
    hide SysOk, LogOk, CursorsOk, CommitReady, Abs, Final, PointsToEnd, RecordOf, Advances;
  }

  /** What the report says about the end of the log, `on_persist_ready` makes persisted. */
  lemma ReportReaches(r: Raw, p: Popped, mci: nat)
    requires LogOk(r.log) && CursorsOk(r.log) && TailEmpty(r.log) && PointsToEnd(p, Abs(r.log))
    requires (r.leader ==> r.term > 0) && (p.snap > 0 ==> SnapFits(r.log, p.snap))
    ensures PersistedLog(r, p, mci).Done?
    ensures PersistedLog(r, p, mci).state.persisted == Last(Abs(r.log))
  {
    PersistLogSound(r, p, mci);
    EndOfTail(r.log);
    IndexesRefine(r.log);
    var o1 := if p.snap != 0 then MaybePersistSnap(r.log, p.snap) else Done(r.log);
    LogOkSame(r.log, o1.state);
    assert Abs(r.log).base <= Last(Abs(r.log));
    hide LogOk, Abs, Advances, MaybeCommit;
    PersistsExactly(o1.state, p.index, p.term);
    PersistsSnapExactly(r.log, p.snap);
    hide MaybePersist, MaybePersistSnap;
  }

  lemma PersistReported(c: Limits, s: Sys, number: nat, mci: nat)
    requires SysOk(c, s) && Reported(s.raw) && (s.rd.Some? ==> number < s.rd.value.number)
    ensures OnPersist(s.raw, number, mci).Some?
    ensures var r' := OnPersist(s.raw, number, mci).value; LogOk(r'.log) && Reported(r')
  {
    var r := s.raw;
    var p := Pop(r.records, number, NOTHING);
    SysOkLog(c, s);
    OnPersistSound(c, s, number, mci);
    SnapsPositive(s);
    LeaderPositive(r);
    PopFindsSnap(r.records, number, NOTHING);
    PoppedFits(s, p);
    hide *;
    OnPersistIs(r, number, mci);
    PersistedLogSound(r, p, mci);
    PoppedReported(r, p, number, mci);
  }

  lemma PoppedReported(r: Raw, p: Popped, number: nat, mci: nat)
    requires LogOk(r.log) && CursorsOk(r.log) && Reported(r) && p == Pop(r.records, number, NOTHING)
    requires (r.leader ==> r.term > 0) && (p.snap > 0 ==> SnapFits(r.log, p.snap))
    ensures PersistedLog(r, p, mci).Done?
    ensures var r' := r.(log := PersistedLog(r, p, mci).state, records := p.rest); LogOk(r'.log) && Reported(r')
  {
    PersistedLogSound(r, p, mci);
    var l := PersistedLog(r, p, mci).state;
    LogOkSame(r.log, l);
    PopTakesPrefix(r.records, number, NOTHING);
    assert Positive(p.rest);
    FinalPop(r.records, number, NOTHING);
    if TailEmpty(l) {
      EndStays(r.log, l);
      AdvancesPersisted(r.log, l, p, r, mci);
      hide LogOk, CursorsOk, Abs, Pop, PersistedLog, Final, Advances, SnapFits, Positive;
      if r.log.persisted != Last(Abs(r.log)) {
        if exists x :: x in p.rest && !Bare(x) {
          RestDecides(p.rest, p);
        } else {
          FinalBare(p.rest, p);
          ReportReaches(r, p, mci);
        }
      }
    }
  }

  lemma EndStays(l: LogState, l': LogState)
    requires LogOk(l) && LogOk(l') && CursorsOk(l') && TailEmpty(l) && l'.tail == l.tail && l'.store == l.store
    ensures l'.persisted <= Last(Abs(l))
  {
  }

  lemma AdvancesPersisted(l: LogState, l': LogState, p: Popped, r: Raw, mci: nat)
    requires r.log == l && LogOk(l) && CursorsOk(l) && PersistedLog(r, p, mci) == Done(l') && (r.leader ==> r.term > 0)
    requires p.snap > 0 ==> SnapFits(l, p.snap)
    ensures l'.persisted >= l.persisted
  {
    PersistLogSound(r, p, mci);
    hide LogOk, Abs, Advances, MaybeCommit;
    var o1 := if p.snap != 0 then MaybePersistSnap(r.log, p.snap) else Done(r.log);
    PersistsSnapExactly(r.log, p.snap);
    PersistedGrows(o1.state, p.index, p.term);
    hide MaybePersist, MaybePersistSnap;
  }

  lemma PoppedFits(s: Sys, p: Popped)
    requires RecordsOk(s) && (p.snap == 0 || exists k :: 0 <= k < |s.raw.records| && s.raw.records[k].snap == Some(p.snap))
    ensures p.snap > 0 ==> SnapFits(s.raw.log, p.snap)
  {
  }

  /** The node after a synchronous advance: the ready reported, all records popped, and a page handed out. */
  lemma AdvanceIs(c: Limits, s: Sys, mci: nat) returns (r1: Raw, r2: Raw, es: seq<Entry>)
    requires SysOk(c, s) && CanHappen(s, AdvanceSync(mci))
    ensures CommitReady(s.raw, s.rd.value) == Some(r1) && SysOk(c, s.(raw := r1, rd := None, written := false))
    ensures OnPersist(r1, r1.maxNumber, mci) == Some(r2) && SysOk(c, s.(raw := r2, rd := None, written := false))
    ensures r2.records == [] && TailEmpty(r2.log) && r2.since == s.raw.since
    ensures LogOk(r2.log) && CursorsOk(r2.log) && LightReady(c, r2).Some? && es == LightReady(c, r2).value.1
    ensures Happens(c, s, AdvanceSync(mci)).Some?
    ensures var s' := Happens(c, s, AdvanceSync(mci)).value;
            s'.raw.log == r2.log && s'.raw.records == [] && s'.handed == s.handed + es && s'.floor == s.floor && s'.rd.None?
  {
    hide LogOk, CursorsOk, Abs, StreamOk, RecordsOk, CommitReady, OnPersist, LightReady, UncommittedOk, PendingOk, Advances;
    CommitReadyIs(s);
    r1 := CommitReady(s.raw, s.rd.value).value;
    var s1 := s.(raw := r1, rd := None, written := false);
    ReportedOk(c, s, s1);
    OnPersistSound(c, s1, r1.maxNumber, mci);
    r2 := OnPersist(r1, r1.maxNumber, mci).value;
    var s2 := s1.(raw := r2);
    PageSound(c, s2);
    AdvanceSyncGood(c, s, mci);
    es := LightReady(c, r2).value.1;
  }

  lemma AdvanceReported(c: Limits, s: Sys, mci: nat)
    requires SysOk(c, s) && CanHappen(s, AdvanceSync(mci)) && Reported(s.raw)
    ensures Happens(c, s, AdvanceSync(mci)).Some?
    ensures var r' := Happens(c, s, AdvanceSync(mci)).value.raw; LogOk(r'.log) && Reported(r') && TailEmpty(r'.log) && r'.records == []
  {
    var s1 := s.(rd := None, written := false);
    assert s.written && s.rd.Some?;
    hide SysOk, Reported, LogOk, CursorsOk, Happens, CommitReady, OnPersist, LightReady, CanHappen;
    var r1, r2, es := AdvanceIs(c, s, mci);
    CommitReported(c, s);
    PersistReported(c, s1.(raw := r1), r1.maxNumber, mci);
    SameReported(r2, Happens(c, s, AdvanceSync(mci)).value.raw);
  }

  lemma SameReported(r: Raw, r': Raw)
    requires LogOk(r.log) && Reported(r) && r'.log == r.log && r'.records == r.records
    ensures Reported(r')
  {
  }

  lemma EventReported(c: Limits, s: Sys, e: Event)
    requires SysOk(c, s) && CanHappen(s, e) && Happens(c, s, e).Some? && Reported(s.raw)
    requires LogOk(Happens(c, s, e).value.raw.log)
    ensures Reported(Happens(c, s, e).value.raw)
  {
    match e
    case TakeReady => TakeReported(c, s);
    case Write => WriteReported(c, s);
    case AdvanceSync(mci) => AdvanceReported(c, s, mci);
    case AdvanceAsync =>
      CommitReported(c, s);
      hide SysOk, Reported, LogOk, CursorsOk, CommitReady;
    case Persisted(number, mci) =>
      PersistReported(c, s, number, mci);
      hide SysOk, Reported, LogOk, CursorsOk, OnPersist;
    case _ =>
      hide LogOk, CursorsOk, FillsOrKeeps, Reported, Happens, CanHappen;
      OtherFills(c, s, e);
      FillsKeepsReported(s.raw, Happens(c, s, e).value.raw);
  }

  lemma {:induction false} RunReported(c: Limits, run: seq<Sys>, events: seq<Event>, i: nat)
    requires PipelineSafety.IsRun(c, run, events) && i < |run|
    requires run[0].raw.log.persisted == run[0].raw.log.store.base + |run[0].raw.log.store.entries|
    ensures SysOk(c, run[i]) && Reported(run[i].raw)
  {
    RunOk(c, run, events, i);
    if i == 0 {
      assert Init(run[0]);
      hide SysOk;
    } else {
      RunReported(c, run, events, i - 1);
      SysOkLog(c, run[i]);
      hide SysOk, CanHappen, Happens, Init, LogOk, CursorsOk, Reported;
      assert Happens(c, run[i - 1], events[i - 1]) == Some(run[i]);
      EventReported(c, run[i - 1], events[i - 1]);
    }
  }

  // ----- what follows

  /** Nothing in the tail and no record left: the whole log is persisted. */
  lemma AllPersisted(r: Raw)
    requires LogOk(r.log) && Reported(r) && TailEmpty(r.log) && r.records == [] && CursorsOk(r.log)
    ensures r.log.persisted == Last(Abs(r.log))
  {
  }

  /** In every run of a node that starts with its store persisted, a synchronous advance leaves the whole log
      persisted, and so does the report of the last ready once it was advanced. */
  lemma EverythingPersisted(c: Limits, run: seq<Sys>, events: seq<Event>, i: nat)
    requires PipelineSafety.IsRun(c, run, events) && i < |events|
    requires run[0].raw.log.persisted == run[0].raw.log.store.base + |run[0].raw.log.store.entries|
    requires || events[i].AdvanceSync?
             || (events[i].Persisted? && events[i].number >= run[i].raw.maxNumber && TailEmpty(run[i + 1].raw.log))
    ensures LogOk(run[i + 1].raw.log) && run[i + 1].raw.log.persisted == Last(Abs(run[i + 1].raw.log))
  {
    RunReported(c, run, events, i);
    RunReported(c, run, events, i + 1);
    SysOkLog(c, run[i + 1]);
    var s := run[i];
    assert CanHappen(s, events[i]) && Happens(c, s, events[i]) == Some(run[i + 1]);
    hide SysOk, Init, LogOk, CursorsOk, Reported, OnPersist;
    if events[i].AdvanceSync? {
      hide Happens, CanHappen;
      AdvanceReported(c, s, events[i].mci);
    } else {
      OnPersistSound(c, s, events[i].number, events[i].mci);
    }
    AllPersisted(run[i + 1].raw);
  }

  /** What a synchronous advance hands out is the next page of what is committed now. */
  lemma AdvanceHandsOut(c: Limits, run: seq<Sys>, events: seq<Event>, i: nat)
    requires PipelineSafety.IsRun(c, run, events) && i < |events| && events[i].AdvanceSync?
    ensures LogOk(run[i + 1].raw.log) && CursorsOk(run[i + 1].raw.log) && TailEmpty(run[i + 1].raw.log)
    ensures var s, s' := run[i], run[i + 1];
            && Abs(s'.raw.log).base <= Top(s) && Min(s'.raw.log.committed, s'.raw.log.persisted) <= Last(Abs(s'.raw.log))
            && s'.handed == s.handed + PageAfter(c, s'.raw.log, Top(s))
            && s'.floor == s.floor && s'.rd.None?
  {
    RunOk(c, run, events, i);
    var s := run[i];
    assert CanHappen(s, events[i]) && Happens(c, s, events[i]) == Some(run[i + 1]);
    hide SysOk, LogOk, CursorsOk, Happens, CommitReady, OnPersist, LightReady, CanHappen, PageAfter;
    var r1, r2, es := AdvanceIs(c, s, events[i].mci);
    PageIs(c, s.(raw := r2, rd := None, written := false));
    LightPage(c, r2);
  }

  lemma LightPage(c: Limits, r: Raw)
    requires LogOk(r.log) && CursorsOk(r.log) && LightReady(c, r).Some?
    ensures var next := NextEntries(r.log, r.since, Some(c.pageSize), c.w);
            LightReady(c, r).value.1 == if next.Some? then next.value else []
  {
    hide LogOk, CursorsOk, NextEntries, Reduce;
  }

  /** So a synchronous advance that hands out nothing leaves nothing committed that the application has not
      got: what is committed reaches it. */
  lemma CommittedReachesApplication(c: Limits, run: seq<Sys>, events: seq<Event>, i: nat)
    requires PipelineSafety.IsRun(c, run, events) && i < |events| && events[i].AdvanceSync?
    requires run[0].raw.log.persisted == run[0].raw.log.store.base + |run[0].raw.log.store.entries|
    requires run[i + 1].handed == run[i].handed
    ensures Top(run[i + 1]) >= run[i + 1].raw.log.committed
  {
    EverythingPersisted(c, run, events, i);
    AdvanceHandsOut(c, run, events, i);
    EmptyPageMeansDone(c, run, events, i);
    CommittedInLog(run[i + 1].raw.log);
  }

  // ----- one report

  /** Whatever popping reports, one of the popped records says. */
  lemma {:induction false} PopNames(records: seq<Record>, number: nat, p: Popped)
    ensures var q := Pop(records, number, p);
            && (q.snap == p.snap || exists k :: 0 <= k < |records| && records[k].number <= number && records[k].snap == Some(q.snap))
            && (q.index == 0 || (q.index == p.index && q.term == p.term)
                || exists k :: 0 <= k < |records| && records[k].number <= number && records[k].last == Some((q.index, q.term)))
    decreases |records|
  {
    if records != [] && records[0].number <= number {
      var p2 := PopOne(records[0], p);
      PopNames(records[1..], number, p2);
      var q := Pop(records[1..], number, p2);
      assert Pop(records, number, p) == q;
      hide Pop;
      if k :| 0 <= k < |records| - 1 && records[1..][k].number <= number && records[1..][k].snap == Some(q.snap) {
        assert records[k + 1] == records[1..][k];
      }
      if k :| 0 <= k < |records| - 1 && records[1..][k].number <= number && records[1..][k].last == Some((q.index, q.term)) {
        assert records[k + 1] == records[1..][k];
      }
      assert records[0].last.Some? ==> p2.index == records[0].last.value.0 && p2.term == records[0].last.value.1;
    }
  }

  /** A record of the ready `number`, or of one before it, says that this was written. */
  ghost predicate Names(records: seq<Record>, number: nat, x: Record) {
    x in records && x.number <= number
  }

  /** In every run a report makes persisted only what a ready up to the reported number asked to write, and
      the log still has; nothing else moves the persisted index up. */
  lemma PersistedOnlyReported(c: Limits, run: seq<Sys>, events: seq<Event>, i: nat)
    requires PipelineSafety.IsRun(c, run, events) && i < |events| && events[i].Persisted?
    requires run[i + 1].raw.log.persisted > run[i].raw.log.persisted
    ensures LogOk(run[i].raw.log)
    ensures var k := run[i + 1].raw.log.persisted;
            exists x :: Names(run[i].raw.records, events[i].number, x)
                        && (x.snap == Some(k) || exists t :: x.last == Some((k, t)))
  {
    var p := PersistedStep(c, run, events, i);
    hide *;
    var rs, number, k := run[i].raw.records, events[i].number, run[i + 1].raw.log.persisted;
    PopNames(rs, number, NOTHING);
    PersistedNamed(run[i].raw, p, events[i].mci);
    if p.snap == k {
      var j :| 0 <= j < |rs| && rs[j].number <= number && rs[j].snap == Some(p.snap);
      NamesIs(rs, number, rs[j]);
    } else {
      var j :| 0 <= j < |rs| && rs[j].number <= number && rs[j].last == Some((p.index, p.term));
      NamesIs(rs, number, rs[j]);
    }
  }

  lemma NamesIs(records: seq<Record>, number: nat, x: Record)
    requires x in records && x.number <= number
    ensures Names(records, number, x)
  {
  }

  /** What reporting does to the log. */
  lemma PersistedStep(c: Limits, run: seq<Sys>, events: seq<Event>, i: nat) returns (p: Popped)
    requires PipelineSafety.IsRun(c, run, events) && i < |events| && events[i].Persisted?
    ensures i + 1 < |run|
    ensures var r := run[i].raw;
            && LogOk(r.log) && CursorsOk(r.log) && (r.leader ==> r.term > 0)
            && p == Pop(r.records, events[i].number, NOTHING)
            && (p.snap > 0 ==> SnapFits(r.log, p.snap))
            && PersistedLog(r, p, events[i].mci) == Done(run[i + 1].raw.log)
            && forall j, k :: 0 <= j < k < |r.records| ==> r.records[j].number < r.records[k].number
  {
    RunOk(c, run, events, i);
    var s, number, mci := run[i], events[i].number, events[i].mci;
    assert CanHappen(s, events[i]) && Happens(c, s, events[i]) == Some(run[i + 1]);
    SysOkLog(c, s);
    RecordsOrdered(s);
    p := Pop(s.raw.records, number, NOTHING);
    LeaderPositive(s.raw);
    SnapsPositive(s);
    PopFindsSnap(s.raw.records, number, NOTHING);
    PoppedFits(s, p);
    OnPersistIs(s.raw, number, mci);
    hide SysOk, LogOk, CursorsOk, Pop, OnPersist, SnapFits, PersistedLog;
  }

  lemma PersistedNamed(r: Raw, p: Popped, mci: nat)
    requires LogOk(r.log) && CursorsOk(r.log) && (r.leader ==> r.term > 0) && (p.snap > 0 ==> SnapFits(r.log, p.snap))
    ensures PersistedLog(r, p, mci).Done?
    ensures var k := PersistedLog(r, p, mci).state.persisted;
            k == r.log.persisted || (k == p.snap && k > 0) || (k == p.index && k > 0)
  {
    PersistLogSound(r, p, mci);
    hide LogOk, Abs, Advances, MaybeCommit, StoreTerm;
  }

  /** What the last entry reported up to a number names becomes persisted, if it has left the tail and the log
      has that term there; a leader then commits what it computes, if the log has its term there. */
  lemma ReportPersists(c: Limits, run: seq<Sys>, events: seq<Event>, i: nat, j: nat)
    requires PipelineSafety.IsRun(c, run, events) && i < |events| && events[i].Persisted?
    requires LogOk(run[i].raw.log) && run[i].raw.log.tail.snap.None?
    requires j < |run[i].raw.records| && run[i].raw.records[j].number <= events[i].number && run[i].raw.records[j].last.Some?
    requires forall k :: j < k < |run[i].raw.records| && run[i].raw.records[k].number <= events[i].number ==> Bare(run[i].raw.records[k])
    requires var (x, t) := run[i].raw.records[j].last.value;
             Abs(run[i].raw.log).base <= x < run[i].raw.log.tail.offset && TermOf(Abs(run[i].raw.log), x) == t && x > 0
    ensures run[i + 1].raw.log.persisted >= run[i].raw.records[j].last.value.0
    ensures run[i].raw.leader && run[i].raw.log.persisted < run[i + 1].raw.log.persisted == run[i].raw.records[j].last.value.0
              && (forall k :: 0 <= k < |run[i].raw.records| ==> run[i].raw.records[k].snap.None?) ==>
              run[i + 1].raw.log.committed ==
              if events[i].mci > run[i].raw.log.committed && TermOf(Abs(run[i].raw.log), events[i].mci) == run[i].raw.term
              then events[i].mci else run[i].raw.log.committed
  {
    var p := PersistedStep(c, run, events, i);
    hide *;
    PopIs(run[i].raw.records, events[i].number, NOTHING, j);
    PopNames(run[i].raw.records, events[i].number, NOTHING);
    EntryPersisted(run[i].raw, p, events[i].mci);
  }

  lemma RecordsOrdered(s: Sys)
    requires RecordsOk(s)
    ensures forall j, k :: 0 <= j < k < |s.raw.records| ==> s.raw.records[j].number < s.raw.records[k].number
  {
  }

  lemma {:induction false} PopIs(records: seq<Record>, number: nat, p: Popped, j: nat)
    requires forall a, b :: 0 <= a < b < |records| ==> records[a].number < records[b].number
    requires j < |records| && records[j].number <= number && records[j].last.Some?
    requires forall k :: j < k < |records| && records[k].number <= number ==> Bare(records[k])
    ensures var q := Pop(records, number, p); (q.index, q.term) == records[j].last.value
    decreases |records|
  {
    assert records[0].number <= number;
    if j > 0 {
      assert forall k :: 0 <= k < |records| - 1 ==> records[1..][k] == records[k + 1];
      PopIs(records[1..], number, PopOne(records[0], p), j - 1);
    } else {
      var p2 := PopOne(records[0], p);
      PopBare(records[1..], number, p2);
    }
  }

  lemma {:induction false} PopBare(records: seq<Record>, number: nat, p: Popped)
    requires forall k :: 0 <= k < |records| && records[k].number <= number ==> Bare(records[k])
    ensures var q := Pop(records, number, p); q.index == p.index && q.term == p.term && q.snap == p.snap
    decreases |records|
  {
    if records != [] && records[0].number <= number {
      assert Bare(records[0]);
      assert forall k :: 0 <= k < |records| - 1 ==> records[1..][k] == records[k + 1];
      PopBare(records[1..], number, PopOne(records[0], p));
    }
  }

  lemma EntryPersisted(r: Raw, p: Popped, mci: nat)
    requires LogOk(r.log) && CursorsOk(r.log) && r.log.tail.snap.None? && (r.leader ==> r.term > 0)
    requires p.snap > 0 ==> SnapFits(r.log, p.snap)
    requires Abs(r.log).base <= p.index < r.log.tail.offset && TermOf(Abs(r.log), p.index) == p.term && p.index > 0
    ensures PersistedLog(r, p, mci).Done? && PersistedLog(r, p, mci).state.persisted >= p.index
    ensures r.leader && p.snap == 0 && PersistedLog(r, p, mci).state.persisted > r.log.persisted ==>
              PersistedLog(r, p, mci).state.committed ==
              if mci > r.log.committed && TermOf(Abs(r.log), mci) == r.term then mci else r.log.committed
  {
    PersistLogSound(r, p, mci);
    var o1 := if p.snap != 0 then MaybePersistSnap(r.log, p.snap) else Done(r.log);
    var l2 := MaybePersist(o1.state, p.index, p.term);
    LogOkSame(r.log, o1.state);
    LogOkSame(r.log, l2);
    hide LogOk, Abs, Advances, TermOf;
    PersistsExactly(o1.state, p.index, p.term);
    if r.leader {
      CommitsExactly(l2, mci, r.term);
    }
    hide MaybePersist, MaybePersistSnap, MaybeCommit;
  }
}
