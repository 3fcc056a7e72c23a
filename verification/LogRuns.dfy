/** What every operation on a node's log keeps, in any order the node calls them. */
module LogRuns {
  import opened Types
  import opened LogModel

  /** The operations, as a node and its application call them. */
  datatype LogOp =
    | LeaderAppend(ents: seq<Entry>)
    | TakeAppend(idx: nat, term: nat, commit: nat, ents: seq<Entry>)
    | Commit(to: nat)
    | CommitAt(index: nat, term: nat)
    | Apply(index: nat)
    | Persist(index: nat, term: nat)
    | PersistSnap(index: nat)
    | RestoreFrom(snap: Snapshot)
    | WriteSnap
    | WriteEntries
    | FinishSnap(index: nat)
    | FinishEntries(index: nat, term: nat)

  predicate PositiveTerms(ents: seq<Entry>) {
    forall k :: 0 <= k < |ents| ==> ents[k].term > 0
  }

  /** What the callers guarantee. An append from a leader is only looked at from the commit index on;
      the application writes the snapshot before the entries, and both before it reports them. */
  predicate Enabled(l: LogState, op: LogOp)
    requires LogOk(l)
  {
    match op
    case LeaderAppend(ents) => Indexed(ents, LastIndex(l))
    case TakeAppend(idx, term, _, ents) =>
      idx >= l.committed && Indexed(ents, idx) && PositiveTerms(ents) && (term != 0 || idx <= LastIndex(l))
    case Commit(to) => to <= LastIndex(l)
    case CommitAt(index, term) => term != 0 || index <= LastIndex(l)
    case Apply(index) => index != 0 ==> l.applied <= index <= Min(l.committed, l.persisted)
    case Persist(_, _) => true
    case PersistSnap(index) =>
      && (index > l.persisted ==> index <= l.committed && index < l.tail.offset)
      && (l.tail.snap.Some? ==> index <= l.tail.snap.value.index)
    case RestoreFrom(s) => s.index >= l.committed
    case WriteSnap => l.tail.snap.Some?
    case WriteEntries => l.tail.snap.Some? ==> l.store == Store(l.tail.snap.value.index, l.tail.snap.value.term, [])
    case FinishSnap(index) =>
      && l.tail.snap.Some? && l.tail.snap.value.index == index
      && l.store.base == index && l.store.baseTerm == l.tail.snap.value.term && l.store.entries == l.tail.entries
    case FinishEntries(index, term) =>
      && l.tail.snap.None? && l.tail.entries != []
      && index == LastIndex(l) && term == TermOf(Abs(l), index)
      && l.store.entries[l.tail.offset - l.store.base - 1..] == l.tail.entries
  }

  function Do(l: LogState, op: LogOp): Outcome
    requires LogOk(l)
  {
    match op
    case LeaderAppend(ents) => Append(l, ents)
    case TakeAppend(idx, term, commit, ents) => MaybeAppend(l, idx, term, commit, ents)
    case Commit(to) => CommitTo(l, to)
    case CommitAt(index, term) => MaybeCommit(l, index, term)
    case Apply(index) => AppliedTo(l, index)
    case Persist(index, term) => Done(MaybePersist(l, index, term))
    case PersistSnap(index) => MaybePersistSnap(l, index)
    case RestoreFrom(s) => Restore(l, s)
    case WriteSnap =>
      if l.tail.snap.None? then Fatal
      else
        var st := StoreApplySnapshot(l.store, l.tail.snap.value);
        Done(if st.Ok? then l.(store := st.value) else l)
    case WriteEntries =>
      if l.tail.entries != [] && !(StoreFirst(l.store) <= l.tail.entries[0].index <= StoreLast(l.store) + 1) then Fatal
      else Done(l.(store := StoreAppend(l.store, l.tail.entries)))
    case FinishSnap(index) => StableSnap(l, index)
    case FinishEntries(index, term) => StableTo(l, index, term)
  }

  // ----- what an operation may change

  /** Cursors only move forward, and what is committed stays in the log unless a snapshot replaces it. */
  ghost predicate Advances(l: LogState, l': LogState)
    requires LogOk(l) && LogOk(l')
  {
    && l.committed <= l'.committed && l.applied <= l'.applied
    && Min(l.committed, l.persisted) <= Min(l'.committed, l'.persisted)
    && Abs(l).base <= Abs(l').base
    && KeepsTo(Abs(l), Abs(l'), l.committed)
  }

  /** Up to index `c`, the later log holds the entries of the earlier one. */
  ghost predicate KeepsTo(g: Log, g': Log, c: nat) {
    && g.base <= g'.base
    && (g'.base < c ==> c <= Last(g) && c <= Last(g'))
    && (forall i :: g'.base < i <= c && i <= Last(g) && i <= Last(g') ==> At(g', i) == At(g, i))
  }

  /** `Done`, and the invariants and monotonicity hold. */
  ghost predicate Sound(l: LogState, r: Outcome)
    requires LogOk(l)
  {
    r.Done? && LogOk(r.state) && CursorsOk(r.state) && Advances(l, r.state)
  }

  // ----- appending

  lemma IndexedSub(ents: seq<Entry>, base: nat, k: nat)
    requires Indexed(ents, base) && k <= |ents|
    ensures Indexed(ents[..k], base) && Indexed(ents[k..], base + k)
  {
  }

  lemma IndexedConcat(a: seq<Entry>, b: seq<Entry>, base: nat)
    requires Indexed(a, base) && Indexed(b, base + |a|)
    ensures Indexed(a + b, base)
  {
  }

  /** Replacing the tail from an index on replaces the log from there on. */
  lemma TailReplaces(l: LogState, ents: seq<Entry>)
    requires LogOk(l) && ents != [] && Abs(l).base < ents[0].index <= Last(Abs(l)) + 1
    requires Indexed(ents, ents[0].index - 1)
    ensures var l' := l.(tail := TruncateAndAppend(l.tail, ents));
            LogOk(l') && Abs(l') == Replaced(Abs(l), ents)
  {
    hide ApproxTotal, Indexed;
    assert l.tail.snap.Some? ==> ents[0].index >= l.tail.offset;
    assert ents[0].index <= l.tail.offset + |l.tail.entries|;
    TruncateKeepsOk(l.tail, ents);
    TailReplacesAbs(l, ents);
  }

  lemma TruncateKeepsOk(u: Unstable, ents: seq<Entry>)
    requires UnstableOk(u) && ents != [] && 0 < ents[0].index <= u.offset + |u.entries|
    requires Indexed(ents, ents[0].index - 1) && (u.snap.Some? ==> ents[0].index >= u.offset)
    ensures UnstableOk(TruncateAndAppend(u, ents))
  {
    hide ApproxTotal, Indexed;
    var after := ents[0].index;
    if after == u.offset + |u.entries| {
      ApproxTotalAppend(u.entries, ents);
      IndexedConcat(u.entries, ents, u.offset - 1);
    } else if after > u.offset {
      IndexedSub(u.entries, u.offset - 1, after - u.offset);
      ApproxTotalAppend(u.entries[..after - u.offset], ents);
      IndexedConcat(u.entries[..after - u.offset], ents, u.offset - 1);
    }
  }

  lemma TailReplacesAbs(l: LogState, ents: seq<Entry>)
    requires LogOk(l) && ents != []
    requires Abs(l).base < ents[0].index <= Last(Abs(l)) + 1
    requires LogOk(l.(tail := TruncateAndAppend(l.tail, ents)))
    ensures Abs(l.(tail := TruncateAndAppend(l.tail, ents))) == Replaced(Abs(l), ents)
  {
    hide ApproxTotal, Indexed;
    var u, after, st := l.tail, ents[0].index, l.store;
    var l' := l.(tail := TruncateAndAppend(u, ents));
    if after == u.offset + |u.entries| {
      assert Abs(l').entries == Abs(l).entries + ents;
      assert Abs(l).entries[..|Abs(l).entries|] == Abs(l).entries;
    } else if after <= u.offset {
      if u.snap.None? {
        assert st.entries[..after - st.base - 1] == Abs(l).entries[..after - st.base - 1];
      } else {
        assert u.entries[..0] == [];
      }
    } else {
      var kept := u.entries[..after - u.offset];
      var base := Abs(l).base;
      assert Abs(l).entries[..after - base - 1] + ents == Abs(l').entries;
    }
  }

  /** An append above the commit index. */
  lemma AppendSound(l: LogState, ents: seq<Entry>)
    requires LogOk(l) && CursorsOk(l)
    requires ents != [] ==> l.committed < ents[0].index <= LastIndex(l) + 1 && Indexed(ents, ents[0].index - 1)
    ensures Append(l, ents).Done?
    ensures var l' := Append(l, ents).state;
            && LogOk(l')
            && l' == l.(tail := l'.tail) && l'.tail.snap == l.tail.snap
            && Abs(l') == (if ents == [] then Abs(l) else Replaced(Abs(l), ents))
            && l'.tail.offset >= (if ents == [] then l.tail.offset else Min(l.tail.offset, ents[0].index))
            && KeepsTo(Abs(l), Abs(l'), l.committed)
            && l.committed <= Last(Abs(l'))
  {
    IndexesRefine(l);
    if ents != [] {
      TailReplaces(l, ents);
      hide LogOk;
    }
  }

  /** The leader appends right after its last entry. */
  lemma LeaderAppendSound(l: LogState, ents: seq<Entry>)
    requires LogOk(l) && CursorsOk(l) && Enabled(l, LeaderAppend(ents))
    ensures Sound(l, Append(l, ents))
    ensures Abs(Append(l, ents).state) == Abs(l).(entries := Abs(l).entries + ents)
  {
    AppendSound(l, ents);
    IndexesRefine(l);
    var g := Abs(l);
    assert g.entries[..|g.entries|] == g.entries;
    if ents == [] {
      assert g.entries + ents == g.entries;
    }
  }

  /** The log holds the first `stop` entries, judging by their terms. */
  ghost predicate Holds(g: Log, idx: nat, ents: seq<Entry>, stop: nat) {
    stop <= |ents| && forall k :: 0 <= k < stop ==> TermOf(g, idx + 1 + k) == ents[k].term && idx + 1 + k <= Last(g)
  }

  /** The first conflict of entries that follow `idx` lies behind `idx`; everything before it is held. */
  lemma {:induction false} ConflictFirst(l: LogState, idx: nat, ents: seq<Entry>)
    requires LogOk(l) && Indexed(ents, idx) && PositiveTerms(ents)
    ensures var ci := FindConflict(l, ents);
            if ci == 0 then Holds(Abs(l), idx, ents, |ents|)
            else
              && idx < ci <= idx + |ents|
              && TermOf(Abs(l), ci) != ents[ci - idx - 1].term
              && Holds(Abs(l), idx, ents, ci - idx - 1)
    decreases |ents|
  {
    hide Term, LogOk, Abs, TermOf;
    if ents != [] {
      TermRefines(l, ents[0].index);
      if MatchTerm(l, ents[0].index, ents[0].term) {
        assert ents[0].term > 0;
        IndexedSub(ents, idx, 1);
        assert PositiveTerms(ents[1..]);
        ConflictFirst(l, idx + 1, ents[1..]);
        var ci := FindConflict(l, ents[1..]);
        TermPositiveInside(Abs(l), idx + 1);
        HoldsOneMore(Abs(l), idx, ents, if ci == 0 then |ents| - 1 else ci - idx - 2);
      }
    }
  }

  lemma TermPositiveInside(g: Log, i: nat)
    ensures TermOf(g, i) > 0 ==> i <= Last(g)
  {
  }

  lemma HoldsOneMore(g: Log, idx: nat, ents: seq<Entry>, stop: nat)
    requires ents != [] && TermOf(g, idx + 1) == ents[0].term && idx + 1 <= Last(g)
    requires Holds(g, idx + 1, ents[1..], stop)
    ensures Holds(g, idx, ents, stop + 1)
  {
    forall k | 0 <= k < stop + 1
      ensures TermOf(g, idx + 1 + k) == ents[k].term && idx + 1 + k <= Last(g)
    {
      if k > 0 {
        assert TermOf(g, idx + 2 + (k - 1)) == ents[1..][k - 1].term;
      }
    }
  }

  /** The log after an accepted append: unchanged up to the first conflict, then the new entries. */
  function AfterAppend(g: Log, idx: nat, ci: nat, ents: seq<Entry>): Log
    requires Indexed(ents, idx)
    requires ci != 0 ==> idx < ci <= idx + |ents| && g.base < ci <= Last(g) + 1
  {
    if ci == 0 then g else Replaced(g, ents[ci - idx - 1..])
  }

  /** Where the conflict lies, and that the entries before it are held. */
  lemma ConflictBounds(l: LogState, idx: nat, ents: seq<Entry>)
    requires LogOk(l) && CursorsOk(l) && idx >= l.committed && Indexed(ents, idx) && PositiveTerms(ents) && idx <= LastIndex(l)
    ensures var ci := FindConflict(l, ents);
            && (ci != 0 ==> idx < ci <= idx + |ents| && Abs(l).base < ci <= Last(Abs(l)) + 1 && l.committed < ci)
            && (ci == 0 ==> idx + |ents| <= Last(Abs(l)))
  {
    ConflictFirst(l, idx, ents);
    IndexesRefine(l);
    hide FindConflict, LogOk, TermOf, PositiveTerms;
    var ci := FindConflict(l, ents);
    if ci > idx + 1 {
      assert TermOf(Abs(l), idx + 1 + (ci - idx - 2)) == ents[ci - idx - 2].term;
    } else if ci == 0 && ents != [] {
      assert TermOf(Abs(l), idx + 1 + (|ents| - 1)) == ents[|ents| - 1].term;
    }
  }

  lemma AppendFromSound(l: LogState, idx: nat, ents: seq<Entry>)
    requires LogOk(l) && CursorsOk(l) && idx >= l.committed && Indexed(ents, idx) && PositiveTerms(ents) && idx <= LastIndex(l)
    ensures var ci := FindConflict(l, ents);
            var r := AppendFrom(l, idx, ci, ents);
            && Sound(l, r) && r.state.committed == l.committed && r.state.applied == l.applied
            && (ci != 0 ==> idx < ci <= idx + |ents| && Abs(l).base < ci <= Last(Abs(l)) + 1)
            && Abs(r.state) == AfterAppend(Abs(l), idx, ci, ents)
            && idx + |ents| <= Last(Abs(r.state))
            && r.state.persisted == (if ci != 0 && l.persisted > ci - 1 then ci - 1 else l.persisted)
  {
    var ci := FindConflict(l, ents);
    ConflictBounds(l, idx, ents);
    hide FindConflict, LogOk, PositiveTerms;
    if ci == 0 {
      AdvancesRefl(l);
    } else {
      ReplaceFromSound(l, idx, ci, ents);
    }
  }

  lemma ReplaceFromSound(l: LogState, idx: nat, ci: nat, ents: seq<Entry>)
    requires LogOk(l) && CursorsOk(l) && Indexed(ents, idx)
    requires idx < ci <= idx + |ents| && l.committed < ci <= Last(Abs(l)) + 1
    ensures var r := AppendFrom(l, idx, ci, ents);
            && Sound(l, r) && r.state.committed == l.committed && r.state.applied == l.applied
            && Abs(r.state) == Replaced(Abs(l), ents[ci - idx - 1..])
            && idx + |ents| <= Last(Abs(r.state))
            && r.state.persisted == (if l.persisted > ci - 1 then ci - 1 else l.persisted)
  {
    hide LogOk, Append, KeepsTo, Abs;
    IndexesRefine(l);
    var rest := ents[ci - idx - 1..];
    IndexedSub(ents, idx, ci - idx - 1);
    assert rest[0].index == ci && |rest| == idx + |ents| + 1 - ci;
    hide Indexed;
    AppendSound(l, rest);
    LogOkSame(Append(l, rest).state, AppendFrom(l, idx, ci, ents).state);
  }

  /** What an append with a conflict does to tail and cursors. */
  lemma AppendFromIs(l: LogState, idx: nat, ents: seq<Entry>)
    requires LogOk(l) && CursorsOk(l) && idx >= l.committed && Indexed(ents, idx) && PositiveTerms(ents) && idx <= LastIndex(l)
    requires FindConflict(l, ents) != 0
    ensures var ci := FindConflict(l, ents);
            && idx < ci <= idx + |ents| && ci <= l.tail.offset + |l.tail.entries| && ents[ci - idx - 1].index == ci
            && AppendFrom(l, idx, ci, ents) ==
               Done(l.(tail := TruncateAndAppend(l.tail, ents[ci - idx - 1..]),
                       persisted := if l.persisted > ci - 1 then ci - 1 else l.persisted))
  {
    ConflictBounds(l, idx, ents);
    IndexesRefine(l);
    hide FindConflict, Abs, TruncateAndAppend;
  }

  /** The cursors do not matter for what the log is. */
  lemma LogOkSame(l: LogState, l': LogState)
    requires LogOk(l) && l'.store == l.store && l'.tail == l.tail
    ensures LogOk(l') && Abs(l') == Abs(l)
  {
  }

  lemma CommitToSound(l: LogState, to: nat)
    requires LogOk(l) && CursorsOk(l) && to <= LastIndex(l)
    ensures Sound(l, CommitTo(l, to)) && CommitTo(l, to) == Done(l.(committed := Max(l.committed, to)))
  {
    IndexesRefine(l);
    CursorsMove(l, l.(committed := Max(l.committed, to)));
  }

  /** A step that moves only the cursors. */
  lemma CursorsMove(l: LogState, l': LogState)
    requires LogOk(l) && l'.store == l.store && l'.tail == l.tail
    requires l.committed <= l'.committed && l.applied <= l'.applied && l.persisted <= l'.persisted
    requires l.committed <= Last(Abs(l))
    ensures LogOk(l') && Abs(l') == Abs(l) && Advances(l, l')
  {
  }

  lemma AdvancesTrans(a: LogState, b: LogState, c: LogState)
    requires LogOk(a) && LogOk(b) && LogOk(c) && Advances(a, b) && Advances(b, c) && CursorsOk(b)
    ensures Advances(a, c)
  {
    hide LogOk, Abs;
    forall i | Abs(c).base < i <= a.committed && i <= Last(Abs(a)) && i <= Last(Abs(c))
      ensures At(Abs(c), i) == At(Abs(a), i)
    {
      assert At(Abs(b), i) == At(Abs(a), i);
    }
  }

  /** An append from the leader never fails; if its anchor matches, the log afterwards holds the
      entries, and the commit index follows the leader's as far as they go. */
  lemma TakeAppendSound(l: LogState, idx: nat, term: nat, commit: nat, ents: seq<Entry>)
    requires LogOk(l) && CursorsOk(l) && Enabled(l, TakeAppend(idx, term, commit, ents))
    ensures var r := MaybeAppend(l, idx, term, commit, ents);
            && Sound(l, r)
            && (TermOf(Abs(l), idx) != term ==> r.state == l)
            && (TermOf(Abs(l), idx) == term ==>
                  && (FindConflict(l, ents) != 0 ==>
                        idx < FindConflict(l, ents) <= idx + |ents| && Abs(l).base < FindConflict(l, ents) <= Last(Abs(l)) + 1)
                  && Abs(r.state) == AfterAppend(Abs(l), idx, FindConflict(l, ents), ents)
                  && r.state.committed == Max(l.committed, Min(commit, idx + |ents|)))
  {
    TermRefines(l, idx);
    IndexesRefine(l);
    if MatchTerm(l, idx, term) {
      hide FindConflict, LogOk, Advances, CursorsOk, AfterAppend, TermOf, MatchTerm, AppendFrom, CommitTo;
      AppendFromSound(l, idx, ents);
      var l1 := AppendFrom(l, idx, FindConflict(l, ents), ents).state;
      IndexesRefine(l1);
      var to := Min(commit, idx + |ents|);
      CommitToSound(l1, to);
      AdvancesTrans(l, l1, CommitTo(l1, to).state);
      LogOkSame(l1, CommitTo(l1, to).state);
      hide Abs;
    } else {
      AdvancesRefl(l);
    }
  }

  // ----- the other operations

  lemma CursorOpsSound(l: LogState, op: LogOp)
    requires LogOk(l) && CursorsOk(l) && Enabled(l, op)
    requires op.Commit? || op.CommitAt? || op.Apply? || op.Persist? || op.PersistSnap?
    ensures Sound(l, Do(l, op)) && Do(l, op).state.store == l.store && Do(l, op).state.tail == l.tail
  {
    hide LogOk, Abs, Advances;
    IndexesRefine(l);
    match op
    case Commit(to) => CommitToSound(l, to);
    case CommitAt(index, term) =>
      TermRefines(l, index);
      if index > l.committed && MatchTerm(l, index, term) {
        CommitToSound(l, index);
      } else {
        AdvancesRefl(l);
      }
    case Apply(index) => CursorsMove(l, AppliedTo(l, index).state);
    case Persist(index, term) => PersistedSound(l, index, term);
    case PersistSnap(index) => CursorsMove(l, MaybePersistSnap(l, index).state);
  }

  lemma PersistedSound(l: LogState, index: nat, term: nat)
    requires LogOk(l) && CursorsOk(l)
    ensures Sound(l, Done(MaybePersist(l, index, term)))
    ensures MaybePersist(l, index, term).store == l.store && MaybePersist(l, index, term).tail == l.tail
  {
    hide Abs, Advances, StoreTerm;
    CursorsMove(l, MaybePersist(l, index, term));
  }

  lemma RestoreSound(l: LogState, s: Snapshot)
    requires LogOk(l) && CursorsOk(l) && Enabled(l, RestoreFrom(s))
    ensures Sound(l, Restore(l, s)) && Abs(Restore(l, s).state) == Log(s.index, s.term, [])
  {
  }

  /** Writing to the store and reporting it leaves the log unchanged. */
  lemma StoreOpsSound(l: LogState, op: LogOp)
    requires LogOk(l) && CursorsOk(l) && Enabled(l, op)
    requires op.WriteSnap? || op.WriteEntries? || op.FinishSnap? || op.FinishEntries?
    ensures Sound(l, Do(l, op)) && Abs(Do(l, op).state) == Abs(l)
  {
    match op
    case WriteSnap => SnapOpsSound(l, op);
    case WriteEntries => WriteEntriesSound(l);
    case FinishSnap(_) => SnapOpsSound(l, op);
    case FinishEntries(_, _) => FinishEntriesSound(l, op.index, op.term);
  }

  lemma SnapOpsSound(l: LogState, op: LogOp)
    requires LogOk(l) && CursorsOk(l) && Enabled(l, op) && (op.WriteSnap? || op.FinishSnap?)
    ensures Sound(l, Do(l, op)) && Abs(Do(l, op).state) == Abs(l)
  {
    hide ApproxTotal, Advances;
    AdvancesSame(l, Do(l, op).state);
  }

  lemma WriteEntriesSound(l: LogState)
    requires LogOk(l) && CursorsOk(l) && Enabled(l, WriteEntries)
    ensures Sound(l, Do(l, WriteEntries)) && Abs(Do(l, WriteEntries).state) == Abs(l)
  {
    var st := Do(l, WriteEntries).state.store;
    WrittenStore(l);
    hide StoreAppend, StoreOk, UnstableOk;
    AdvancesSame(l, l.(store := st));
  }

  lemma WrittenStore(l: LogState)
    requires LogOk(l) && Enabled(l, WriteEntries)
    ensures Do(l, WriteEntries).Done?
    ensures var l' := Do(l, WriteEntries).state;
            l'.tail == l.tail && l' == l.(store := l'.store) && LogOk(l') && Abs(l') == Abs(l)
  {
    if l.tail.entries != [] && l.tail.snap.None? {
      var k := l.tail.offset - l.store.base - 1;
      IndexedSub(l.store.entries, l.store.base, k);
      IndexedConcat(l.store.entries[..k], l.tail.entries, l.store.base);
      assert (l.store.entries[..k] + l.tail.entries)[..k] == l.store.entries[..k];
    }
  }

  lemma AdvancesSame(l: LogState, l': LogState)
    requires LogOk(l) && CursorsOk(l) && LogOk(l') && Abs(l') == Abs(l)
    requires l'.committed == l.committed && l'.persisted == l.persisted && l'.applied == l.applied
    ensures Advances(l, l')
  {
  }

  lemma FinishEntriesSound(l: LogState, index: nat, term: nat)
    requires LogOk(l) && CursorsOk(l) && Enabled(l, FinishEntries(index, term))
    ensures Sound(l, StableTo(l, index, term)) && Abs(StableTo(l, index, term).state) == Abs(l)
  {
    hide Advances;
    IndexesRefine(l);
    var k := l.tail.offset - l.store.base - 1;
    assert ApproxTotal([]) == 0;
    hide ApproxTotal, Indexed;
    assert l.store.entries == l.store.entries[..k] + l.store.entries[k..];
    assert At(Abs(l), index) == l.tail.entries[|l.tail.entries| - 1];
    AdvancesSame(l, StableTo(l, index, term).state);
  }

  // ----- runs

  /** No enabled operation fails, and every one keeps the cursor invariant and what is committed. */
  lemma OpSound(l: LogState, op: LogOp)
    requires LogOk(l) && CursorsOk(l) && Enabled(l, op)
    ensures Sound(l, Do(l, op))
  {
    hide LogOk, CursorsOk, Enabled, Sound;
    match op
    case LeaderAppend(ents) => LeaderAppendSound(l, ents);
    case TakeAppend(idx, term, commit, ents) => TakeAppendSound(l, idx, term, commit, ents);
    case RestoreFrom(s) => RestoreSound(l, s);
    case WriteSnap => StoreOpsSound(l, op);
    case WriteEntries => StoreOpsSound(l, op);
    case FinishSnap(_) => StoreOpsSound(l, op);
    case FinishEntries(_, _) => StoreOpsSound(l, op);
    case _ => CursorOpsSound(l, op);
  }

  /** Each state results from an enabled operation on the one before. */
  ghost predicate IsRun(run: seq<LogState>, ops: seq<LogOp>) {
    && |run| == |ops| + 1
    && LogOk(run[0]) && CursorsOk(run[0])
    && forall i :: 0 <= i < |ops| ==> LogOk(run[i]) && Enabled(run[i], ops[i]) && Do(run[i], ops[i]) == Done(run[i + 1])
  }

  /** Through every run the cursors stay in order and only move forward, and no entry at or below the
      commit index is rewritten. */
  lemma {:induction false} RunSound(run: seq<LogState>, ops: seq<LogOp>, i: nat, j: nat)
    requires IsRun(run, ops) && i <= j < |run|
    ensures LogOk(run[i]) && CursorsOk(run[i]) && LogOk(run[j]) && CursorsOk(run[j]) && Advances(run[i], run[j])
    decreases j
  {
    hide LogOk, CursorsOk, Enabled, Advances;
    if j == 0 {
      AdvancesRefl(run[0]);
    } else {
      RunSound(run, ops, if i < j then i else j - 1, j - 1);
      assert Do(run[j - 1], ops[j - 1]) == Done(run[j]);
      OpSound(run[j - 1], ops[j - 1]);
      AdvancesRefl(run[j]);
      if i < j {
        AdvancesTrans(run[i], run[j - 1], run[j]);
      }
    }
  }

  lemma AdvancesRefl(l: LogState)
    requires LogOk(l) && CursorsOk(l)
    ensures Advances(l, l)
  {
  }
}
