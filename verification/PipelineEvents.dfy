/** Each event of the pipeline in turn. */
module PipelineEvents {
  import opened Types
  import opened LogModel
  import opened LogRuns
  import opened Pipeline
  import opened PipelineRuns
  import opened PipelineKeeps

  /** The event fails no assertion, and the invariant holds afterwards. */
  ghost predicate Good(c: Limits, o: Option<Sys>) {
    o.Some? && SysOk(c, o.value)
  }

  // ----- input while following

  lemma ReceiveFacts(l: LogState, op: LogOp)
    requires LogOk(l) && CursorsOk(l) && Enabled(l, op)
    requires op.TakeAppend? || op.Commit? || op.CommitAt?
    ensures Sound(l, Do(l, op))
    ensures var l' := Do(l, op).state;
            && l'.store == l.store && l'.tail.snap == l.tail.snap && l'.applied == l.applied
            && l'.tail.offset >= Min(l.tail.offset, l.committed + 1)
            && Abs(l').base == Abs(l).base
  {
    if op.TakeAppend? {
      TakeAppendFacts(l, op);
    } else {
      CursorOpsSound(l, op);
    }
  }

  lemma TakeAppendFacts(l: LogState, op: LogOp)
    requires LogOk(l) && CursorsOk(l) && Enabled(l, op) && op.TakeAppend?
    ensures Sound(l, Do(l, op))
    ensures var l' := Do(l, op).state;
            && l'.store == l.store && l'.tail.snap == l.tail.snap && l'.applied == l.applied
            && l'.tail.offset >= Min(l.tail.offset, l.committed + 1)
            && Abs(l').base == Abs(l).base
  {
    hide LogOk, CursorsOk, Abs, FindConflict, Advances, AppendFrom, PositiveTerms;
    TakeAppendSound(l, op.idx, op.term, op.commit, op.ents);
    TermRefines(l, op.idx);
    IndexesRefine(l);
    if MatchTerm(l, op.idx, op.term) {
      AppendFromTail(l, op.idx, op.ents);
    }
    AbsBase(l);
    AbsBase(Do(l, op).state);
  }

  lemma AppendFromTail(l: LogState, idx: nat, ents: seq<Entry>)
    requires LogOk(l) && CursorsOk(l) && idx >= l.committed && Indexed(ents, idx) && PositiveTerms(ents) && idx <= LastIndex(l)
    ensures var r := AppendFrom(l, idx, FindConflict(l, ents), ents);
            && r.Done?
            && r.state.store == l.store && r.state.tail.snap == l.tail.snap && r.state.applied == l.applied
            && r.state.tail.offset >= Min(l.tail.offset, l.committed + 1)
  {
    hide FindConflict, LogOk, Abs, CursorsOk, Indexed, PositiveTerms, LastIndex;
    assert AppendFrom(l, idx, 0, ents) == Done(l);
    hide AppendFrom;
    if FindConflict(l, ents) != 0 {
      AppendFromIs(l, idx, ents);
    }
  }

  lemma AbsBase(l: LogState)
    requires LogOk(l)
    ensures Abs(l).base == if l.tail.snap.Some? then l.tail.snap.value.index else l.store.base
  {
  }

  lemma RecordsFit(s: Sys, s': Sys)
    requires RecordsOk(s)
    requires s'.raw.records == s.raw.records && s'.raw.maxNumber == s.raw.maxNumber && s'.rd == s.rd
    requires s'.raw.leader ==> s.raw.leader && s'.raw.prevLeader == s.raw.prevLeader
    requires s.raw.log.committed <= s'.raw.log.committed
    requires s'.raw.log.tail.offset >= Min(s.raw.log.tail.offset, s.raw.log.committed + 1)
    requires s'.raw.log.tail.snap == s.raw.log.tail.snap
          || (s'.raw.log.tail.snap.Some? && s'.raw.log.tail.snap.value.index >= s.raw.log.committed)
    ensures RecordsOk(s')
  {
  }

  lemma ReceiveGood(c: Limits, s: Sys, e: Event)
    requires SysOk(c, s) && e.Receive? && CanHappen(s, e)
    ensures Good(c, Happens(c, s, e))
  {
    hide LogOk, CursorsOk, Abs, Enabled, StreamOk, RecordsOk, Advances, SnapAfter;
    var l := s.raw.log;
    if e.op.RestoreFrom? {
      RestoreGood(c, s, e);
    } else {
      ReceiveFacts(l, e.op);
      var s' := Happens(c, s, e).value;
      AbsBase(s'.raw.log);
      hide Do;
      StreamSnap(s);
      StreamStays(s, s');
      RecordsFit(s, s');
    }
  }

  lemma StreamSnap(s: Sys)
    requires LogOk(s.raw.log) && StreamOk(s)
    ensures s.raw.log.tail.snap.None? ==> Abs(s.raw.log).base <= Top(s)
    ensures s.raw.log.tail.snap.Some? ==> Top(s) <= s.raw.log.tail.snap.value.index
    ensures s.raw.log.applied <= Top(s) <= s.raw.log.committed
    ensures s.raw.since == 0 || s.raw.log.applied <= s.raw.since
    ensures s.raw.since < s.floor ==> s.floor <= Abs(s.raw.log).base
  {
  }

  lemma RestoreGood(c: Limits, s: Sys, e: Event)
    requires SysOk(c, s) && e.Receive? && e.op.RestoreFrom? && CanHappen(s, e)
    ensures Good(c, Happens(c, s, e))
  {
    hide LogOk, CursorsOk, Abs, StreamOk, RecordsOk, Advances, SnapAfter;
    var l := s.raw.log;
    RestoreSound(l, e.op.snap);
    AbsBase(l);
    StoreBaseLow(l);
    var s' := Happens(c, s, e).value;
    StreamSnap(s);
    StreamStays(s, s');
    RecordsFit(s, s');
  }

  lemma StoreBaseLow(l: LogState)
    requires LogOk(l) && (l.tail.snap.Some? ==> l.store.base < l.tail.snap.value.index)
    ensures l.store.base <= Abs(l).base
  {
  }

  // ----- becoming leader, and stepping down

  lemma AppendEntryGood(c: Limits, r: Raw, ents: seq<Entry>)
    requires LogOk(r.log) && CursorsOk(r.log) && Increase(c, r, ents).Some?
    ensures var o := AppendEntry(c, r, ents);
            && o.Some?
            && o.value == r.(uncommitted := Increase(c, r, ents).value.uncommitted, log := o.value.log)
            && Sound(r.log, Done(o.value.log))
            && Abs(o.value.log) == Abs(r.log).(entries := Abs(r.log).entries + Stamp(ents, r.term, Last(Abs(r.log))))
            && o.value.log == r.log.(tail := o.value.log.tail) && o.value.log.tail.snap == r.log.tail.snap
            && o.value.log.tail.offset == r.log.tail.offset
  {
    hide LogOk, CursorsOk, Abs, Advances, Stamp;
    IndexesRefine(r.log);
    var es := Stamp(ents, r.term, LastIndex(r.log));
    LeaderAppendSound(r.log, es);
    AppendTail(r.log, es);
    hide Append;
  }

  lemma AppendTail(l: LogState, es: seq<Entry>)
    requires LogOk(l) && Indexed(es, LastIndex(l)) && Append(l, es).Done?
    ensures var l' := Append(l, es).state;
            l' == l.(tail := l'.tail) && l'.tail.snap == l.tail.snap && l'.tail.offset == l.tail.offset
  {
    EndOfTail(l);
  }

  /** Whatever a leader appends, the stream and the records are as before. */
  lemma AppendKeepsStream(s: Sys, s': Sys)
    requires LogOk(s.raw.log) && CursorsOk(s.raw.log) && StreamOk(s) && RecordsOk(s)
    requires Sound(s.raw.log, Done(s'.raw.log))
    requires s'.raw.log == s.raw.log.(tail := s'.raw.log.tail) && s'.raw.log.tail.snap == s.raw.log.tail.snap
    requires s'.raw.log.tail.offset == s.raw.log.tail.offset
    requires s' == s.(raw := s'.raw) && s'.raw.since == s.raw.since && s'.raw.records == s.raw.records
    requires s'.raw.maxNumber == s.raw.maxNumber && s'.raw.prevLeader == s.raw.prevLeader
    requires s'.raw.leader && !s.raw.leader ==> forall x :: x in s.raw.records ==> x.last.None? && x.snap.None?
    ensures StreamOk(s') && RecordsOk(s')
  {
    hide LogOk, CursorsOk, Abs, Advances, SnapAfter;
    AbsBase(s.raw.log);
    AbsBase(s'.raw.log);
    StreamSnap(s);
    hide StreamOk;
    StreamStays(s, s');
  }

  lemma WinGood(c: Limits, s: Sys)
    requires SysOk(c, s) && CanHappen(s, Win)
    ensures Good(c, Happens(c, s, Win))
  {
    hide LogOk, CursorsOk, Abs, StreamOk, RecordsOk, Advances, AppendEntry, TermsBelow;
    var r := s.raw;
    IndexesRefine(r.log);
    var r1 := r.(leader := true, uncommitted := 0, tailIndex := LastIndex(r.log), pendingConf := LastIndex(r.log));
    assert DataSize([EMPTY][1..]) == 0;
    assert Increase(c, r1, [EMPTY]).Some? && Increase(c, r1, [EMPTY]).value.uncommitted == 0;
    AppendEntryGood(c, r1, [EMPTY]);
    var s' := Happens(c, s, Win).value;
    AppendKeepsStream(s, s');
    StreamSnap(s);
    CommittedInLog(r.log);
    WinPending(r, s'.raw);
    WinUncommitted(c, r1, s'.raw);
  }

  lemma WinUncommitted(c: Limits, r: Raw, r': Raw)
    requires LogOk(r.log) && LogOk(r'.log) && r.since <= Last(Abs(r.log)) == r.tailIndex
    requires r'.leader && r'.since == r.since && r'.tailIndex == r.tailIndex && r'.uncommitted == 0
    requires Abs(r'.log) == Abs(r.log).(entries := Abs(r.log).entries + Stamp([EMPTY], r.term, Last(Abs(r.log))))
    ensures UncommittedOk(c, r')
  {
    hide LogOk, Abs;
    DataAfterAppend(Abs(r.log), Stamp([EMPTY], r.term, Last(Abs(r.log))), r.tailIndex);
    DataSizeStamp([EMPTY], r.term, Last(Abs(r.log)));
    assert DataSize([EMPTY]) == 0;
    assert Abs(r.log).entries[|Abs(r.log).entries|..] == [];
  }

  lemma WinPending(r: Raw, r': Raw)
    requires LogOk(r.log) && LogOk(r'.log) && TermsBelow(Abs(r.log), r.term) && r.term > 0
    requires r'.leader && r'.term == r.term && r'.pendingConf == Last(Abs(r.log))
    requires Abs(r'.log) == Abs(r.log).(entries := Abs(r.log).entries + Stamp([EMPTY], r.term, Last(Abs(r.log))))
    ensures PendingOk(r')
  {
    hide LogOk, Abs;
    var g, g' := Abs(r.log), Abs(r'.log);
    forall i: nat | Unapplied(r', i)
      ensures i <= Last(g) && At(g', i).term < r.term
    {
      if i <= Last(g) {
        assert At(g', i) == g.entries[i - g.base - 1];
      }
    }
  }

  lemma ResignGood(c: Limits, s: Sys, e: Event)
    requires SysOk(c, s) && e.Resign? && CanHappen(s, e)
    ensures Good(c, Happens(c, s, e))
  {
    hide LogOk, CursorsOk, Abs, SnapAfter, HandedOk, SnapFits;
  }

  // ----- leading

  lemma LeaderCommitGood(c: Limits, s: Sys, mci: nat)
    requires SysOk(c, s) && CanHappen(s, LeaderCommit(mci))
    ensures Good(c, Happens(c, s, LeaderCommit(mci)))
  {
    hide LogOk, CursorsOk, Abs, StreamOk, RecordsOk, Advances, SnapAfter, UncommittedOk, PendingOk;
    LeaderPositive(s.raw);
    CursorOpsSound(s.raw.log, CommitAt(mci, s.raw.term));
    var s' := Happens(c, s, LeaderCommit(mci)).value;
    SameLogKeeps(c, s, s');
  }

  lemma LeaderPositive(r: Raw)
    requires LogOk(r.log) && PendingOk(r)
    ensures r.leader ==> r.term > 0
  {
  }

  /** An event that only moves the log's cursors, except the applied one. */
  lemma SameLogKeeps(c: Limits, s: Sys, s': Sys)
    requires SysOk(c, s) && s'.raw == s.raw.(log := s'.raw.log) && s' == s.(raw := s'.raw)
    requires s'.raw.log.store == s.raw.log.store && s'.raw.log.tail == s.raw.log.tail
    requires Sound(s.raw.log, Done(s'.raw.log)) && s'.raw.log.applied == s.raw.log.applied
    ensures SysOk(c, s')
  {
    hide LogOk, CursorsOk, Abs, StreamOk, RecordsOk, Advances, SnapAfter;
    LogOkSame(s.raw.log, s'.raw.log);
    StreamSnap(s);
    StreamStays(s, s');
    AdvancesCommitted(s.raw.log, s'.raw.log);
    RecordsFit(s, s');
    SameLogPending(c, s.raw, s'.raw);
    SameLogReady(s, s');
    hide UncommittedOk, PendingOk, ReadyOk;
  }

  lemma AdvancesCommitted(l: LogState, l': LogState)
    requires LogOk(l) && LogOk(l') && Advances(l, l')
    ensures l.committed <= l'.committed
  {
  }

  lemma SameLogPending(c: Limits, r: Raw, r': Raw)
    requires LogOk(r.log) && LogOk(r'.log) && Abs(r'.log) == Abs(r.log) && r' == r.(log := r'.log, records := r'.records)
    requires r'.log.applied >= r.log.applied && UncommittedOk(c, r) && PendingOk(r)
    ensures UncommittedOk(c, r') && PendingOk(r')
  {
    hide LogOk, Abs, DataAfter;
    forall i: nat | Unapplied(r', i)
      ensures Unapplied(r, i)
    {
    }
  }

  lemma SameLogReady(s: Sys, s': Sys)
    requires LogOk(s.raw.log) && LogOk(s'.raw.log) && ReadyOk(s)
    requires s'.raw == s.raw.(log := s'.raw.log) && s' == s.(raw := s'.raw)
    requires s'.raw.log.store == s.raw.log.store && s'.raw.log.tail == s.raw.log.tail
    requires s.raw.log.committed <= s'.raw.log.committed
    ensures ReadyOk(s')
  {
    hide LogOk;
  }

  // ----- proposing

  ghost predicate NoConfChange(es: seq<Entry>) {
    forall k :: 0 <= k < |es| ==> !IsConfChange(es[k])
  }

  /** The only membership change among the entries, if any, is the one at index `pending`. */
  ghost predicate RecordedAt(es: seq<Entry>, pending: nat, next: nat) {
    forall k :: 0 <= k < |es| && IsConfChange(es[k]) ==> pending == next + k
  }

  /** At most one membership change passes, and only if none is unapplied; it is recorded at its index. */
  lemma {:induction false} ScreenPasses(r: Raw, joint: bool, ps: seq<Proposal>, next: nat)
    requires next > r.log.applied
    ensures var r', es := Screen(r, joint, ps, next).0, Screen(r, joint, ps, next).1;
            && (r.pendingConf > r.log.applied ==> r'.pendingConf == r.pendingConf && NoConfChange(es))
            && RecordedAt(es, r'.pendingConf, next)
    decreases |ps|
  {
    if ps != [] {
      var passes := IsConfChange(ps[0].entry) && Accepts(r, joint, ps[0]);
      var r1 := if passes then r.(pendingConf := next) else r;
      ScreenPasses(r1, joint, ps[1..], next + 1);
      var es1 := Screen(r1, joint, ps[1..], next + 1).1;
      var es := Screen(r, joint, ps, next).1;
      assert es[1..] == es1 && Screen(r1, joint, ps[1..], next + 1).0 == Screen(r, joint, ps, next).0;
      assert IsConfChange(es[0]) ==> passes;
      hide Screen;
      forall k | 0 <= k < |es| && IsConfChange(es[k])
        ensures k > 0 ==> es[k] == es1[k - 1]
      {
      }
    }
  }

  lemma ProposeGood(c: Limits, s: Sys, joint: bool, ps: seq<Proposal>)
    requires SysOk(c, s) && CanHappen(s, ProposeBatch(joint, ps))
    ensures Good(c, Happens(c, s, ProposeBatch(joint, ps)))
  {
    hide LogOk, CursorsOk, Abs, StreamOk, RecordsOk, Advances, UncommittedOk, PendingOk, AppendEntry, Increase, Screened;
    var r := s.raw;
    IndexesRefine(r.log);
    var last := LastIndex(r.log);
    AppliedInLog(r.log);
    ScreenedPasses(r, joint, ps);
    var r1, es := Screened(r, joint, ps).0, Screened(r, joint, ps).1;
    var s' := Happens(c, s, ProposeBatch(joint, ps)).value;
    if Readable(ps) < |ps| || Increase(c, r1, es).None? {
      RefusedIs(c, r, joint, ps);
      RefusedGood(c, s, s');
      RefusedPending(r, s'.raw);
    } else {
      AppendEntryGood(c, r1, es);
      AppendKeepsStream(s, s');
      AppendReady(s, s');
      AppendUncommitted(c, r, r1, s'.raw, es);
      StampKeepsKinds(es, r.term, last, s'.raw.pendingConf);
      AppendPending(r, s'.raw, Stamp(es, r.term, last));
    }
  }

  lemma ScreenedPasses(r: Raw, joint: bool, ps: seq<Proposal>)
    requires LogOk(r.log) && LastIndex(r.log) >= r.log.applied
    ensures var r', es := Screened(r, joint, ps).0, Screened(r, joint, ps).1;
            && (r.pendingConf > r.log.applied ==> r'.pendingConf == r.pendingConf && NoConfChange(es))
            && RecordedAt(es, r'.pendingConf, LastIndex(r.log) + 1)
  {
    hide LogOk, Screen, Readable;
    IndexesRefine(r.log);
    ScreenPasses(r, joint, ps[..Readable(ps)], LastIndex(r.log) + 1);
  }

  lemma StampKeepsKinds(es: seq<Entry>, term: nat, last: nat, pending: nat)
    ensures NoConfChange(es) ==> NoConfChange(Stamp(es, term, last))
    ensures RecordedAt(es, pending, last + 1) ==> RecordedAt(Stamp(es, term, last), pending, last + 1)
  {
  }

  lemma AppliedInLog(l: LogState)
    requires LogOk(l) && CursorsOk(l)
    ensures l.applied <= l.committed <= Last(Abs(l))
  {
  }

  lemma RefusedIs(c: Limits, r: Raw, joint: bool, ps: seq<Proposal>)
    requires LogOk(r.log)
    requires Readable(ps) < |ps| || Increase(c, Screened(r, joint, ps).0, Screened(r, joint, ps).1).None?
    ensures Propose(c, r, joint, ps) == Screened(r, joint, ps).0
  {
    hide LogOk, Screened, Increase;
  }

  lemma RefusedGood(c: Limits, s: Sys, s': Sys)
    requires SysOk(c, s) && s' == s.(raw := s.raw.(pendingConf := s'.raw.pendingConf))
    ensures StreamOk(s') && RecordsOk(s') && ReadyOk(s') && UncommittedOk(c, s'.raw)
  {
    hide LogOk, CursorsOk, Abs, HandedOk, SnapAfter, DataAfter, SnapFits;
  }

  /** A dropped batch may leave a recorded change that is nowhere in the log. */
  lemma RefusedPending(r: Raw, r': Raw)
    requires LogOk(r.log) && PendingOk(r) && r.leader && r' == r.(pendingConf := r'.pendingConf)
    requires r.pendingConf > r.log.applied ==> r'.pendingConf == r.pendingConf
    ensures PendingOk(r')
  {
    hide LogOk, Abs;
    forall i: nat | Unapplied(r', i)
      ensures Unapplied(r, i)
    {
    }
  }

  lemma AppendReady(s: Sys, s': Sys)
    requires LogOk(s.raw.log) && LogOk(s'.raw.log) && ReadyOk(s) && s.rd.None?
    requires s'.raw.log.tail.snap == s.raw.log.tail.snap && s'.raw.log.store == s.raw.log.store
    requires s'.rd == s.rd && s'.written == s.written
    ensures ReadyOk(s')
  {
    hide LogOk;
  }

  lemma AppendUncommitted(c: Limits, r: Raw, r1: Raw, r': Raw, es: seq<Entry>)
    requires LogOk(r.log) && LogOk(r'.log) && r.leader && UncommittedOk(c, r)
    requires r1 == r.(pendingConf := r1.pendingConf) && Increase(c, r1, es).Some?
    requires r'.uncommitted == Increase(c, r1, es).value.uncommitted
    requires r'.tailIndex == r.tailIndex && r'.since == r.since && r'.leader
    requires Abs(r'.log) == Abs(r.log).(entries := Abs(r.log).entries + Stamp(es, r.term, Last(Abs(r.log))))
    ensures UncommittedOk(c, r')
  {
    hide LogOk, Abs, DataAfter, DataSize, Stamp;
    DataAfterAppend(Abs(r.log), Stamp(es, r.term, Last(Abs(r.log))), Max(r.tailIndex, r.since));
    DataSizeStamp(es, r.term, Last(Abs(r.log)));
  }

  lemma AppendPending(r: Raw, r': Raw, es: seq<Entry>)
    requires LogOk(r.log) && LogOk(r'.log) && r.leader && PendingOk(r)
    requires r'.leader && r'.term == r.term && r'.log.applied == r.log.applied
    requires Abs(r'.log) == Abs(r.log).(entries := Abs(r.log).entries + es)
    requires r.pendingConf > r.log.applied ==> r'.pendingConf == r.pendingConf && NoConfChange(es)
    requires RecordedAt(es, r'.pendingConf, Last(Abs(r.log)) + 1)
    ensures PendingOk(r')
  {
    hide LogOk, Abs;
    var g, g' := Abs(r.log), Abs(r'.log);
    forall i: nat | Unapplied(r', i)
      ensures i <= Last(g) ==> Unapplied(r, i) && At(g', i) == At(g, i)
      ensures i > Last(g) ==> r.pendingConf <= r.log.applied && i == r'.pendingConf
    {
      if i > Last(g) {
        assert At(g', i) == es[i - Last(g) - 1];
      }
    }
  }
}
