/** The store, the unstable tail and the log as the objects that a node updates in place. Every
    operation is proved against its specification on values in module LogModel.*/
module LogClasses {
  import opened Types
  import opened LogModel
  import opened LogRuns

  /** `limit_size`: keeps the longest prefix within the limit, but at least one entry. */
  method Limit(ents: seq<Entry>, max: Option<nat>, w: Weigh) returns (r: seq<Entry>)
    ensures r == LimitSize(ents, max, w)
  {
    if |ents| <= 1 || max.None? || max.value == NO_LIMIT {
      return ents;
    }
    var size: nat, limit: nat := 0, 0;
    while limit < |ents|
      invariant 0 <= limit <= |ents|
      invariant Taken(ents, 0, 0, max.value, w) == Taken(ents, limit, size, max.value, w)
    {
      var first := size == 0;
      size := size + w(ents[limit]);
      if !first && size > max.value {
        break;
      }
      limit := limit + 1;
    }
    r := ents[..limit];
  }

  class MemStorage {
    var snapIndex: nat
    var snapTerm: nat
    var entries: seq<Entry>

    ghost function State(): Store
      reads this
    {
      Store(snapIndex, snapTerm, entries)
    }

    ghost predicate Valid()
      reads this
    {
      StoreOk(State())
    }

    constructor ()
      ensures Valid() && State() == Store(0, 0, [])
    {
      snapIndex, snapTerm, entries := 0, 0, [];
    }

    function FirstIndex(): nat
      reads this
      ensures FirstIndex() == StoreFirst(State())
    {
      if entries == [] then snapIndex + 1 else entries[0].index
    }

    function LastIndex(): nat
      reads this
      ensures LastIndex() == StoreLast(State())
    {
      if entries == [] then snapIndex else entries[|entries| - 1].index
    }

    function Term(i: nat): Result<nat>
      requires Valid()
      reads this
      ensures Term(i) == StoreTerm(State(), i)
    {
      if i == snapIndex then Ok(snapTerm)
      else if i < FirstIndex() then Err(Compacted)
      else if i > LastIndex() then Err(Unavailable)
      else Ok(entries[i - FirstIndex()].term)
    }

    method Entries(lo: nat, hi: nat, max: Option<nat>, w: Weigh) returns (r: Result<seq<Entry>>)
      requires Valid() && lo <= hi <= LastIndex() + 1 && entries != []
      ensures r == StoreEntries(State(), lo, hi, max, w)
    {
      if lo < FirstIndex() {
        return Err(Compacted);
      }
      var ents := Limit(entries[lo - FirstIndex()..hi - FirstIndex()], max, w);
      r := Ok(ents);
    }

    method Append(ents: seq<Entry>)
      requires Valid() && (ents != [] ==> FirstIndex() <= ents[0].index <= LastIndex() + 1)
      modifies this
      ensures State() == StoreAppend(old(State()), ents)
    {
      if ents != [] {
        entries := entries[..ents[0].index - FirstIndex()] + ents;
      }
    }

    method ApplySnapshot(s: Snapshot) returns (ok: bool)
      modifies this
      ensures ok == StoreApplySnapshot(old(State()), s).Ok?
      ensures State() == if ok then StoreApplySnapshot(old(State()), s).value else old(State())
    {
      ok := FirstIndex() <= s.index;
      if ok {
        snapIndex, snapTerm, entries := s.index, s.term, [];
      }
    }
  }

  class UnstableLog {
    var snap: Option<Snapshot>
    var entries: seq<Entry>
    var size: nat
    var offset: nat

    ghost function State(): Unstable
      reads this
    {
      Unstable(snap, entries, size, offset)
    }

    constructor (offset: nat)
      ensures State() == Unstable(None, [], 0, offset)
    {
      snap, entries, size := None, [], 0;
      this.offset := offset;
    }

    method TruncateAndAppend(ents: seq<Entry>)
      requires UnstableOk(State()) && ents != [] && ents[0].index <= offset + |entries|
      modifies this
      ensures State() == LogModel.TruncateAndAppend(old(State()), ents)
    {
      var after := ents[0].index;
      if after == offset + |entries| {
      } else if after <= offset {
        offset, entries, size := after, [], 0;
      } else {
        var k := after - offset;
        var rest := |entries|;
        assert entries[..rest] == entries;
        while rest > k
          invariant k <= rest <= |entries|
          invariant size == ApproxTotal(entries[..rest])
          invariant offset == old(offset) && entries == old(entries) && snap == old(snap)
        {
          assert entries[..rest][..rest - 1] == entries[..rest - 1];
          size := size - ApproxSize(entries[rest - 1]);
          rest := rest - 1;
        }
        entries := entries[..k];
      }
      entries := entries + ents;
      var added := ApproxSum(ents);
      size := size + added;
    }

    method StableEntries(index: nat, term: nat)
      requires snap.None? && entries != []
      requires entries[|entries| - 1].index == index && entries[|entries| - 1].term == term
      modifies this
      ensures State() == LogModel.StableEntries(old(State()))
    {
      offset := entries[|entries| - 1].index + 1;
      entries, size := [], 0;
    }

    method StableSnap(index: nat)
      requires snap.Some? && snap.value.index == index
      modifies this
      ensures State() == old(State()).(snap := None)
    {
      snap := None;
    }

    method Restore(s: Snapshot)
      modifies this
      ensures State() == UnstableRestore(old(State()), s)
    {
      entries, size, offset, snap := [], 0, s.index + 1, Some(s);
    }
  }

  method ApproxSum(ents: seq<Entry>) returns (r: nat)
    ensures r == ApproxTotal(ents)
  {
    r := 0;
    for i := 0 to |ents|
      invariant r == ApproxTotal(ents[..i])
    {
      assert ents[..i + 1][..i] == ents[..i];
      r := r + ApproxSize(ents[i]);
    }
    assert ents[..|ents|] == ents;
  }

  class RaftLog {
    const store: MemStorage
    const tail: UnstableLog
    var committed: nat
    var persisted: nat
    var applied: nat

    ghost function State(): LogState
      reads this, store, tail
    {
      LogState(store.State(), tail.State(), committed, persisted, applied)
    }

    ghost predicate Valid()
      reads this, store, tail
    {
      LogOk(State()) && CursorsOk(State())
    }

    /** Starts from a store: everything in it is persisted, nothing after its snapshot is known to be committed. */
    constructor (store: MemStorage)
      requires store.Valid()
      ensures Valid() && this.store == store && fresh(tail)
      ensures Abs(State()) == Log(store.snapIndex, store.snapTerm, store.entries)
      ensures committed == applied == store.snapIndex && persisted == store.snapIndex + |store.entries|
    {
      this.store := store;
      var first, last := store.FirstIndex(), store.LastIndex();
      committed, persisted, applied := first - 1, last, first - 1;
      tail := new UnstableLog(last + 1);
      assert store.entries[..|store.entries|] + [] == store.entries;
    }

    function FirstIndex(): nat
      reads this, store, tail
      ensures FirstIndex() == LogModel.FirstIndex(State())
    {
      if tail.snap.Some? then tail.snap.value.index + 1 else store.FirstIndex()
    }

    function LastIndex(): nat
      requires Valid()
      reads this, store, tail
      ensures LastIndex() == LogModel.LastIndex(State()) == Last(Abs(State()))
    {
      IndexesRefine(State());
      if tail.entries != [] then tail.offset + |tail.entries| - 1
      else if tail.snap.Some? then tail.snap.value.index
      else store.LastIndex()
    }

    function Term(i: nat): Result<nat>
      requires Valid()
      reads this, store, tail
      ensures Term(i) == Ok(TermOf(Abs(State()), i))
    {
      IndexesRefine(State());
      TermRefines(State(), i);
      if i < FirstIndex() - 1 || i > LastIndex() then Ok(0)
      else if i >= tail.offset && i < tail.offset + |tail.entries| then Ok(tail.entries[i - tail.offset].term)
      else if tail.snap.Some? && i == tail.snap.value.index then Ok(tail.snap.value.term)
      else store.Term(i)
    }

    method FindConflict(ents: seq<Entry>) returns (ci: nat)
      requires Valid()
      ensures ci == LogModel.FindConflict(State(), ents)
    {
      assert ents[0..] == ents;
      for k := 0 to |ents|
        invariant LogModel.FindConflict(State(), ents) == LogModel.FindConflict(State(), ents[k..])
      {
        TermRefines(State(), ents[k].index);
        assert ents[k..][1..] == ents[k + 1..];
        if Term(ents[k].index) != Ok(ents[k].term) {
          return ents[k].index;
        }
      }
      ci := 0;
    }

    /** The greatest index up to `index` whose term is at most `term`. */
    method FindConflictByTerm(index: nat, term: nat) returns (i: nat, t: Option<nat>)
      requires Valid()
      requires TermOf(Abs(State()), 0) == 0
      ensures index > Last(Abs(State())) ==> i == index && t == None
      ensures index <= Last(Abs(State())) ==>
                && i <= index && t == Some(TermOf(Abs(State()), i)) && TermOf(Abs(State()), i) <= term
                && forall j :: i < j <= index ==> TermOf(Abs(State()), j) > term
    {
      if index > LastIndex() {
        return index, None;
      }
      i := index;
      while Term(i).value > term
        invariant i <= index
        invariant forall j :: i < j <= index ==> TermOf(Abs(State()), j) > term
        decreases i
      {
        i := i - 1;
      }
      t := Some(Term(i).value);
    }

    method CommitTo(to: nat)
      requires Valid() && to <= LastIndex()
      modifies this
      ensures LogModel.CommitTo(old(State()), to) == Done(State())
      ensures Valid()
    {
      if committed < to {
        committed := to;
      }
    }

    method Append(ents: seq<Entry>) returns (last: nat)
      requires Valid()
      requires ents != [] ==> LastIndex() + 1 == ents[0].index && Indexed(ents, LastIndex())
      modifies this, tail
      ensures LogModel.Append(old(State()), ents) == Done(State())
      ensures Valid() && last == LastIndex()
      ensures Abs(State()) == old(Abs(State())).(entries := old(Abs(State())).entries + ents)
    {
      ghost var l := State();
      LeaderAppendSound(l, ents);
      if ents != [] {
        tail.TruncateAndAppend(ents);
      }
      last := LastIndex();
    }

    /** Takes over a leader's entries: everything from the first conflict on is replaced. */
    method MaybeAppend(idx: nat, term: nat, commit: nat, ents: seq<Entry>) returns (r: Option<(nat, nat)>)
      requires Valid() && Enabled(State(), TakeAppend(idx, term, commit, ents))
      modifies this, tail
      ensures LogModel.MaybeAppend(old(State()), idx, term, commit, ents) == Done(State())
      ensures Valid()
      ensures r == if old(TermOf(Abs(State()), idx)) != term then None
                   else Some((LogModel.FindConflict(old(State()), ents), idx + |ents|))
    {
      ghost var l := State();
      assert AppendFrom(l, idx, 0, ents) == Done(l);
      hide Abs, AppendFrom, TermOf, LogModel.FindConflict, PositiveTerms, Indexed;
      TakeAppendSound(l, idx, term, commit, ents);
      if Term(idx) != Ok(term) {
        return None;
      }
      TermRefines(l, idx);
      var ci := FindConflict(ents);
      if ci != 0 {
        Overwrite(idx, ci, ents);
      }
      hide LogOk, CursorsOk, Abs, LogModel.FindConflict, AppendFrom;
      var last := idx + |ents|;
      if committed < Min(commit, last) {
        committed := Min(commit, last);
      }
      r := Some((ci, last));
    }

    /** Replaces everything from the conflict on; what was persisted there no longer counts. */
    method Overwrite(idx: nat, ci: nat, ents: seq<Entry>)
      requires Valid() && idx >= committed && Indexed(ents, idx) && PositiveTerms(ents) && idx <= LastIndex()
      requires ci == LogModel.FindConflict(State(), ents) != 0
      modifies this, tail
      ensures AppendFrom(old(State()), idx, ci, ents) == Done(State())
      ensures committed == old(committed)
    {
      hide AppendFrom, LogModel.FindConflict, Abs, CursorsOk, Indexed, PositiveTerms, ApproxTotal, LogModel.TruncateAndAppend;
      AppendFromIs(State(), idx, ents);
      tail.TruncateAndAppend(ents[ci - idx - 1..]);
      if persisted > ci - 1 {
        persisted := ci - 1;
      }
    }

    method MaybeCommit(index: nat, term: nat) returns (done: bool)
      requires Valid() && (term != 0 || index <= LastIndex())
      modifies this
      ensures LogModel.MaybeCommit(old(State()), index, term) == Done(State())
      ensures Valid() && (done <==> committed > old(committed))
    {
      TermRefines(State(), index);
      done := index > committed && Term(index) == Ok(term);
      if done {
        CommitTo(index);
      }
    }

    method AppliedTo(index: nat)
      requires Valid() && (index != 0 ==> applied <= index <= Min(committed, persisted))
      modifies this
      ensures LogModel.AppliedTo(old(State()), index) == Done(State())
      ensures Valid()
    {
      if index != 0 {
        applied := index;
      }
    }

    method MaybePersist(index: nat, term: nat) returns (done: bool)
      requires Valid()
      modifies this
      ensures State() == LogModel.MaybePersist(old(State()), index, term)
      ensures Valid() && (done <==> persisted > old(persisted))
    {
      PersistedSound(State(), index, term);
      var first := if tail.snap.Some? then tail.snap.value.index else tail.offset;
      done := index > persisted && index < first && store.Term(index) == Ok(term);
      if done {
        persisted := index;
      }
    }

    method MaybePersistSnap(index: nat) returns (done: bool)
      requires Valid() && Enabled(State(), PersistSnap(index))
      modifies this
      ensures LogModel.MaybePersistSnap(old(State()), index) == Done(State())
      ensures Valid() && (done <==> persisted > old(persisted))
    {
      done := index > persisted;
      if done {
        persisted := index;
      }
    }

    method Restore(s: Snapshot)
      requires Valid() && s.index >= committed
      modifies this, tail
      ensures LogModel.Restore(old(State()), s) == Done(State())
      ensures Valid() && Abs(State()) == Log(s.index, s.term, [])
    {
      RestoreSound(State(), s);
      if persisted > committed {
        persisted := committed;
      }
      committed := s.index;
      tail.Restore(s);
    }

    method StableSnap(index: nat)
      requires Valid() && Enabled(State(), FinishSnap(index))
      modifies tail
      ensures LogModel.StableSnap(old(State()), index) == Done(State())
      ensures Valid() && Abs(State()) == old(Abs(State()))
    {
      StoreOpsSound(State(), FinishSnap(index));
      tail.StableSnap(index);
    }

    method StableEntries(index: nat, term: nat)
      requires Valid() && Enabled(State(), FinishEntries(index, term))
      modifies tail
      ensures StableTo(old(State()), index, term) == Done(State())
      ensures Valid() && Abs(State()) == old(Abs(State()))
    {
      StoreOpsSound(State(), FinishEntries(index, term));
      hide Abs, Indexed, ApproxTotal, CursorsOk;
      tail.StableEntries(index, term);
    }

    /** Reads a range: the store's part first, then the tail's. */
    method Slice(lo: nat, hi: nat, max: Option<nat>, w: Weigh) returns (r: Result<seq<Entry>>)
      requires Valid() && lo <= hi && (lo >= FirstIndex() ==> hi <= LastIndex() + 1)
      ensures r == LogModel.Slice(State(), lo, hi, max, w)
    {
      hide CursorsOk, Abs, Indexed, ApproxTotal, LimitSize, StoreEntries;
      EndOfTail(State());
      if lo < FirstIndex() {
        return Err(Compacted);
      }
      if lo == hi {
        return Ok([]);
      }
      var ents := [];
      if lo < tail.offset {
        var cut := Min(hi, tail.offset);
        var part := store.Entries(lo, cut, max, w);
        if part.Err? || |part.value| < cut - lo {
          return part;
        }
        ents := part.value;
      }
      if hi > tail.offset {
        var part := tail.entries[Max(lo, tail.offset) - tail.offset..hi - tail.offset];
        assert [] + part == part;
        ents := ents + part;
      }
      ents := Limit(ents, max, w);
      r := Ok(ents);
    }

    /** The committed and persisted entries after `since`, in pages of limited size. */
    method NextEntriesSince(since: nat, max: Option<nat>, w: Weigh) returns (r: Option<seq<Entry>>)
      requires Valid()
      ensures r == NextEntries(State(), since, max, w)
    {
      IndexesRefine(State());
      hide LogOk, Abs, LimitSize, LogModel.Slice;
      var offset := Max(since + 1, FirstIndex());
      var high := Min(committed, persisted) + 1;
      if high > offset {
        SliceRefines(State(), offset, high, max, w);
        var ents := Slice(offset, high, max, w);
        return Some(ents.value);
      }
      r := None;
    }
  }
}
