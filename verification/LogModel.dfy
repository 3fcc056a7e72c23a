/** The log of one node as values: a store, an unstable tail and four cursors that together stand for
    one log (raft-rs/src/raft_log.rs, raft-rs/src/log_unstable.rs, raft-rs/src/storage.rs). */
module LogModel {
  import opened Types

  // ----- the abstract log

  /** The entries after a snapshot point `base`, whose term is remembered. */
  datatype Log = Log(base: nat, baseTerm: nat, entries: seq<Entry>)

  function Last(g: Log): nat {
    g.base + |g.entries|
  }

  /** The entry at index `i`. */
  function At(g: Log, i: nat): Entry
    requires g.base < i <= Last(g)
  {
    g.entries[i - g.base - 1]
  }

  /** The term at index `i`; zero outside the log. */
  function TermOf(g: Log, i: nat): nat {
    if i < g.base || i > Last(g) then 0
    else if i == g.base then g.baseTerm
    else At(g, i).term
  }

  /** The entries with indexes in `[lo, hi)`. */
  function Range(g: Log, lo: nat, hi: nat): seq<Entry>
    requires g.base < lo <= hi <= Last(g) + 1
  {
    g.entries[lo - g.base - 1..hi - g.base - 1]
  }

  /** The log after its entries from the index of the first new one on are replaced. */
  function Replaced(g: Log, ents: seq<Entry>): Log
    requires ents != [] && g.base < ents[0].index <= Last(g) + 1
  {
    g.(entries := g.entries[..ents[0].index - g.base - 1] + ents)
  }

  /** The entries directly follow index `base`. */
  predicate Indexed(ents: seq<Entry>, base: nat) {
    forall k :: 0 <= k < |ents| ==> ents[k].index == base + 1 + k
  }

  // ----- sizes

  const NO_LIMIT: nat := 0xFFFF_FFFF_FFFF_FFFF

  /** The serialized size of an entry, which the encoding decides. */
  type Weigh = Entry -> nat

  /** How many entries are taken: all that fit together with `size`, and any while nothing has a size yet. */
  function Taken(ents: seq<Entry>, i: nat, size: nat, max: nat, w: Weigh): (r: nat)
    requires i <= |ents|
    ensures i <= r <= |ents|
    decreases |ents| - i
  {
    if i < |ents| && (size == 0 || size + w(ents[i]) <= max) then Taken(ents, i + 1, size + w(ents[i]), max, w) else i
  }

  /** `limit_size`: a prefix of the entries. */
  function LimitSize(ents: seq<Entry>, max: Option<nat>, w: Weigh): (r: seq<Entry>)
    ensures r <= ents && (ents != [] ==> r != [])
  {
    if |ents| <= 1 || max.None? || max.value == NO_LIMIT then ents else ents[..Taken(ents, 0, 0, max.value, w)]
  }

  function Total(ents: seq<Entry>, w: Weigh): nat {
    if ents == [] then 0 else Total(ents[..|ents| - 1], w) + w(ents[|ents| - 1])
  }

  lemma {:induction false} TakenIsLongest(ents: seq<Entry>, i: nat, max: nat, w: Weigh)
    requires i <= |ents| && (i > 0 ==> Total(ents[..i], w) > 0)
    requires forall e :: e in ents ==> w(e) > 0
    ensures var r := Taken(ents, i, Total(ents[..i], w), max, w);
            && (r > i && r > 1 ==> Total(ents[..r], w) <= max)
            && (r < |ents| ==> r > 0 && Total(ents[..r + 1], w) > max)
    decreases |ents| - i
  {
    if i < |ents| {
      TotalNext(ents, i, w);
      assert w(ents[i]) > 0;
      var size := Total(ents[..i], w);
      if size == 0 || size + w(ents[i]) <= max {
        TakenIsLongest(ents, i + 1, max, w);
      }
    }
  }

  lemma TotalNext(ents: seq<Entry>, i: nat, w: Weigh)
    requires i < |ents|
    ensures Total(ents[..i + 1], w) == Total(ents[..i], w) + w(ents[i])
  {
    assert ents[..i + 1][..i] == ents[..i];
  }

  /** When every entry has a size, the result is the longest prefix within the limit, but at least one entry. */
  lemma LimitSizeIsLongest(ents: seq<Entry>, max: nat, w: Weigh)
    requires max != NO_LIMIT && forall e :: e in ents ==> w(e) > 0
    ensures var r := LimitSize(ents, Some(max), w);
            && (|r| > 1 ==> Total(r, w) <= max)
            && (|r| < |ents| ==> Total(ents[..|r| + 1], w) > max)
  {
    if |ents| > 1 {
      assert ents[..0] == [];
      TakenIsLongest(ents, 0, max, w);
    }
  }

  lemma {:induction false} TakenOfPrefix(ents: seq<Entry>, k: nat, i: nat, size: nat, max: nat, w: Weigh)
    requires i <= k <= |ents|
    ensures var p := Taken(ents[..k], i, size, max, w);
            if p < k then Taken(ents, i, size, max, w) == p else Taken(ents, i, size, max, w) >= k
    decreases k - i
  {
    if i < k && (size == 0 || size + w(ents[i]) <= max) {
      TakenOfPrefix(ents, k, i + 1, size + w(ents[i]), max, w);
    }
  }

  /** Limiting a prefix first changes nothing: if it is cut, the whole is cut there too. */
  lemma LimitInTwoStages(a: seq<Entry>, b: seq<Entry>, max: Option<nat>, w: Weigh)
    requires |LimitSize(a, max, w)| < |a|
    ensures LimitSize(a + b, max, w) == LimitSize(a, max, w)
  {
    assert (a + b)[..|a|] == a;
    TakenOfPrefix(a + b, |a|, 0, 0, max.value, w);
  }

  /** The approximate size that bounds the unstable log. */
  function ApproxSize(e: Entry): nat {
    |e.data| + |e.context| + 12
  }

  function ApproxTotal(ents: seq<Entry>): nat {
    if ents == [] then 0 else ApproxTotal(ents[..|ents| - 1]) + ApproxSize(ents[|ents| - 1])
  }

  lemma {:induction false} ApproxTotalAppend(a: seq<Entry>, b: seq<Entry>)
    ensures ApproxTotal(a + b) == ApproxTotal(a) + ApproxTotal(b)
  {
    if b == [] {
      assert a + b == a;
    } else {
      ApproxTotalAppend(a, b[..|b| - 1]);
      assert (a + b)[..|a + b| - 1] == a + b[..|b| - 1];
    }
  }

  // ----- the store

  datatype LogError = Compacted | Unavailable | SnapshotOutOfDate

  datatype Result<T> = Ok(value: T) | Err(error: LogError)

  datatype Snapshot = Snapshot(index: nat, term: nat)

  datatype Store = Store(base: nat, baseTerm: nat, entries: seq<Entry>)

  predicate StoreOk(st: Store) {
    Indexed(st.entries, st.base)
  }

  function StoreFirst(st: Store): nat {
    if st.entries == [] then st.base + 1 else st.entries[0].index
  }

  function StoreLast(st: Store): nat {
    if st.entries == [] then st.base else st.entries[|st.entries| - 1].index
  }

  function StoreTerm(st: Store, i: nat): Result<nat>
    requires StoreOk(st)
  {
    if i == st.base then Ok(st.baseTerm)
    else if i < StoreFirst(st) then Err(Compacted)
    else if i > StoreLast(st) then Err(Unavailable)
    else Ok(st.entries[i - StoreFirst(st)].term)
  }

  function StoreEntries(st: Store, lo: nat, hi: nat, max: Option<nat>, w: Weigh): Result<seq<Entry>>
    requires StoreOk(st) && lo <= hi <= StoreLast(st) + 1 && st.entries != []
  {
    if lo < StoreFirst(st) then Err(Compacted)
    else Ok(LimitSize(st.entries[lo - StoreFirst(st)..hi - StoreFirst(st)], max, w))
  }

  /** Overwrites the store from the first new entry on; a gap or compacted entries panic. */
  function StoreAppend(st: Store, ents: seq<Entry>): Store
    requires StoreOk(st)
    requires ents != [] ==> StoreFirst(st) <= ents[0].index <= StoreLast(st) + 1
  {
    if ents == [] then st
    else st.(entries := st.entries[..ents[0].index - StoreFirst(st)] + ents)
  }

  function StoreApplySnapshot(st: Store, s: Snapshot): Result<Store> {
    if StoreFirst(st) > s.index then Err(SnapshotOutOfDate) else Ok(Store(s.index, s.term, []))
  }

  // ----- the unstable tail

  datatype Unstable = Unstable(snap: Option<Snapshot>, entries: seq<Entry>, size: nat, offset: nat)

  predicate UnstableOk(u: Unstable) {
    && u.offset >= 1
    && Indexed(u.entries, u.offset - 1)
    && (u.snap.Some? ==> u.offset == u.snap.value.index + 1)
    && u.size == ApproxTotal(u.entries)
  }

  function MaybeLast(u: Unstable): Option<nat>
    requires u.offset >= 1
  {
    if u.entries != [] then Some(u.offset + |u.entries| - 1)
    else if u.snap.Some? then Some(u.snap.value.index)
    else None
  }

  function MaybeTerm(u: Unstable, i: nat): Option<nat>
    requires UnstableOk(u)
  {
    if i < u.offset then
      if u.snap.Some? && i == u.snap.value.index then Some(u.snap.value.term) else None
    else
      match MaybeLast(u)
      case None => None
      case Some(last) => if i > last then None else Some(u.entries[i - u.offset].term)
  }

  /** Truncates to the first new entry, then appends. An index past the end panics. */
  function TruncateAndAppend(u: Unstable, ents: seq<Entry>): Unstable
    requires ents != [] && ents[0].index <= u.offset + |u.entries|
  {
    var after := ents[0].index;
    if after == u.offset + |u.entries| then
      u.(entries := u.entries + ents, size := u.size + ApproxTotal(ents))
    else if after <= u.offset then
      u.(entries := ents, size := ApproxTotal(ents), offset := after)
    else
      var kept := u.entries[..after - u.offset];
      u.(entries := kept + ents, size := ApproxTotal(kept) + ApproxTotal(ents))
  }

  function StableEntries(u: Unstable): Unstable
    requires u.entries != []
  {
    u.(entries := [], size := 0, offset := u.entries[|u.entries| - 1].index + 1)
  }

  function UnstableRestore(u: Unstable, s: Snapshot): Unstable {
    Unstable(Some(s), [], 0, s.index + 1)
  }

  // ----- both together, with the cursors

  datatype LogState = LogState(store: Store, tail: Unstable, committed: nat, persisted: nat, applied: nat)

  /** Store and tail fit together: the tail starts inside the store or right after it, and an empty
      tail starts where the store ends. */
  predicate LogOk(l: LogState) {
    && StoreOk(l.store)
    && UnstableOk(l.tail)
    && (l.tail.snap.None? ==>
          && l.store.base < l.tail.offset <= l.store.base + |l.store.entries| + 1
          && (l.tail.entries == [] ==> l.tail.offset == l.store.base + |l.store.entries| + 1))
  }

  /** The log that store and tail stand for; what the store holds at or past `offset` is ignored. */
  function Abs(l: LogState): Log
    requires LogOk(l)
  {
    match l.tail.snap
    case Some(s) => Log(s.index, s.term, l.tail.entries)
    case None => Log(l.store.base, l.store.baseTerm,
                     l.store.entries[..l.tail.offset - l.store.base - 1] + l.tail.entries)
  }

  predicate CursorsOk(l: LogState)
    requires LogOk(l)
  {
    && l.applied <= l.committed && l.applied <= l.persisted
    && l.persisted < l.tail.offset
    && Abs(l).base <= l.committed <= Last(Abs(l))
    && (l.tail.snap.Some? ==> l.persisted <= l.tail.snap.value.index)
  }

  function FirstIndex(l: LogState): nat {
    if l.tail.snap.Some? then l.tail.snap.value.index + 1 else StoreFirst(l.store)
  }

  function LastIndex(l: LogState): nat
    requires l.tail.offset >= 1
  {
    match MaybeLast(l.tail)
    case Some(i) => i
    case None => StoreLast(l.store)
  }

  function Term(l: LogState, i: nat): Result<nat>
    requires LogOk(l)
  {
    if i < FirstIndex(l) - 1 || i > LastIndex(l) then Ok(0)
    else
      match MaybeTerm(l.tail, i)
      case Some(t) => Ok(t)
      case None => StoreTerm(l.store, i)
  }

  predicate MatchTerm(l: LogState, i: nat, t: nat)
    requires LogOk(l)
  {
    Term(l, i) == Ok(t)
  }

  /** First and last index are those of the log it stands for. */
  lemma IndexesRefine(l: LogState)
    requires LogOk(l)
    ensures l.tail.offset >= 1
    ensures FirstIndex(l) == Abs(l).base + 1
    ensures LastIndex(l) == Last(Abs(l))
  {
  }

  lemma EndOfTail(l: LogState)
    requires LogOk(l)
    ensures LastIndex(l) + 1 == l.tail.offset + |l.tail.entries|
    ensures FirstIndex(l) == if l.tail.snap.Some? then l.tail.offset else l.store.base + 1
    ensures StoreLast(l.store) == l.store.base + |l.store.entries|
  {
  }

  /** The term lookup never fails and agrees with the log it stands for. */
  lemma TermRefines(l: LogState, i: nat)
    requires LogOk(l)
    ensures Term(l, i) == Ok(TermOf(Abs(l), i))
  {
    IndexesRefine(l);
    if Abs(l).base <= i <= Last(Abs(l)) && i < l.tail.offset && l.tail.snap.None? && i > l.store.base {
      assert At(Abs(l), i) == l.store.entries[i - l.store.base - 1];
    }
  }

  // ----- reading a range

  /** The part of the range that the tail holds. */
  function TailPart(l: LogState, lo: nat, hi: nat): seq<Entry>
    requires l.tail.offset < hi <= l.tail.offset + |l.tail.entries| && lo <= hi
  {
    l.tail.entries[Max(lo, l.tail.offset) - l.tail.offset..hi - l.tail.offset]
  }

  /** `slice`: the store's part is limited before the tail's part is added, and the whole again. */
  function Slice(l: LogState, lo: nat, hi: nat, max: Option<nat>, w: Weigh): Result<seq<Entry>>
    requires LogOk(l) && lo <= hi && (lo >= FirstIndex(l) ==> hi <= LastIndex(l) + 1)
  {
    if lo < FirstIndex(l) then Err(Compacted)
    else if lo == hi then Ok([])
    else if lo < l.tail.offset then
      var cut := Min(hi, l.tail.offset);
      match StoreEntries(l.store, lo, cut, max, w)
      case Err(e) => Err(e)
      case Ok(ents) =>
        if |ents| < cut - lo then Ok(ents)
        else if hi > l.tail.offset then Ok(LimitSize(ents + TailPart(l, lo, hi), max, w))
        else Ok(LimitSize(ents, max, w))
    else Ok(LimitSize(TailPart(l, lo, hi), max, w))
  }

  lemma SliceOfConcat<T>(a: seq<T>, b: seq<T>, i: nat, j: nat)
    requires i <= j <= |a| + |b|
    ensures i >= |a| ==> (a + b)[i..j] == b[i - |a|..j - |a|]
    ensures j <= |a| ==> (a + b)[i..j] == a[i..j]
    ensures i <= |a| <= j ==> (a + b)[i..j] == a[i..] + b[..j - |a|]
  {
  }

  /** The part of the range that the store holds. */
  function StorePart(l: LogState, lo: nat, hi: nat): seq<Entry>
    requires l.store.base < lo <= hi <= l.store.base + |l.store.entries| + 1
  {
    l.store.entries[lo - l.store.base - 1..hi - l.store.base - 1]
  }

  lemma RangeSplits(l: LogState, lo: nat, hi: nat)
    requires LogOk(l) && Abs(l).base < lo < hi <= Last(Abs(l)) + 1
    ensures var off := l.tail.offset;
            var cut := Min(hi, off);
            if lo >= off then hi > off && Range(Abs(l), lo, hi) == TailPart(l, lo, hi)
            else
              && l.tail.snap.None? && l.store.base < lo && cut <= l.store.base + |l.store.entries| + 1
              && Range(Abs(l), lo, hi) == StorePart(l, lo, cut) + (if hi > off then TailPart(l, lo, hi) else [])
  {
    hide Indexed, ApproxTotal;
    if l.tail.snap.None? {
      if lo >= l.tail.offset {
        RangeInTail(l, lo, hi);
      } else if hi <= l.tail.offset {
        RangeInStore(l, lo, hi);
        assert StorePart(l, lo, hi) + [] == StorePart(l, lo, hi);
      } else {
        RangeAcross(l, lo, hi);
      }
    }
  }

  lemma RangeInTail(l: LogState, lo: nat, hi: nat)
    requires LogOk(l) && l.tail.snap.None? && l.tail.offset <= lo < hi <= Last(Abs(l)) + 1
    ensures Range(Abs(l), lo, hi) == TailPart(l, lo, hi)
  {
    hide Indexed, ApproxTotal;
    var kept := l.store.entries[..l.tail.offset - l.store.base - 1];
    SliceOfConcat(kept, l.tail.entries, lo - l.store.base - 1, hi - l.store.base - 1);
  }

  lemma RangeInStore(l: LogState, lo: nat, hi: nat)
    requires LogOk(l) && l.tail.snap.None? && l.store.base < lo < hi <= l.tail.offset
    ensures Range(Abs(l), lo, hi) == StorePart(l, lo, hi)
  {
    hide Indexed, ApproxTotal;
    var k := l.tail.offset - l.store.base - 1;
    SliceOfConcat(l.store.entries[..k], l.tail.entries, lo - l.store.base - 1, hi - l.store.base - 1);
    SliceOfSlice(l.store.entries, k, lo - l.store.base - 1, hi - l.store.base - 1);
  }

  lemma RangeAcross(l: LogState, lo: nat, hi: nat)
    requires LogOk(l) && l.tail.snap.None? && l.store.base < lo < l.tail.offset < hi <= Last(Abs(l)) + 1
    ensures Range(Abs(l), lo, hi) == StorePart(l, lo, l.tail.offset) + TailPart(l, lo, hi)
  {
    hide Indexed, ApproxTotal;
    var k := l.tail.offset - l.store.base - 1;
    SliceOfConcat(l.store.entries[..k], l.tail.entries, lo - l.store.base - 1, hi - l.store.base - 1);
    SliceOfSlice(l.store.entries, k, lo - l.store.base - 1, k);
  }

  lemma SliceOfSlice<T>(a: seq<T>, k: nat, i: nat, j: nat)
    requires i <= j <= k <= |a|
    ensures a[..k][i..j] == a[i..j]
    ensures j == k ==> a[..k][i..] == a[i..j]
  {
  }

  lemma StorePartRead(l: LogState, lo: nat, hi: nat, max: Option<nat>, w: Weigh)
    requires LogOk(l) && l.tail.snap.None? && l.store.base < lo < hi <= l.store.base + |l.store.entries| + 1
    ensures StoreFirst(l.store) == l.store.base + 1 && hi <= StoreLast(l.store) + 1 && l.store.entries != []
    ensures StoreEntries(l.store, lo, hi, max, w) == Ok(LimitSize(StorePart(l, lo, hi), max, w))
  {
    hide LimitSize, ApproxTotal;
  }

  /** Reading a range gives the limited range of the log it stands for, although it is limited in two stages. */
  lemma SliceRefines(l: LogState, lo: nat, hi: nat, max: Option<nat>, w: Weigh)
    requires LogOk(l) && Abs(l).base < lo <= hi <= Last(Abs(l)) + 1
    ensures lo >= FirstIndex(l) && hi <= LastIndex(l) + 1
    ensures Slice(l, lo, hi, max, w) == Ok(LimitSize(Range(Abs(l), lo, hi), max, w))
  {
    IndexesRefine(l);
    if lo < hi {
      RangeSplits(l, lo, hi);
      if lo < l.tail.offset {
        var cut := Min(hi, l.tail.offset);
        var part := StorePart(l, lo, cut);
        StorePartRead(l, lo, cut, max, w);
        LimitCases(part, if hi > l.tail.offset then TailPart(l, lo, hi) else [], max, w);
        assert part + [] == part;
        hide LogOk, Abs, Range, LimitSize, TailPart, StorePart, StoreEntries;
      }
    }
  }

  lemma LimitCases(a: seq<Entry>, b: seq<Entry>, max: Option<nat>, w: Weigh)
    ensures |LimitSize(a, max, w)| < |a| ==> LimitSize(a + b, max, w) == LimitSize(a, max, w)
    ensures |LimitSize(a, max, w)| >= |a| ==> LimitSize(a, max, w) == a
  {
    if |LimitSize(a, max, w)| < |a| {
      LimitInTwoStages(a, b, max, w);
    }
  }

  /** `next_entries_since`: the committed and persisted entries after `since` that are still in the log. */
  function NextEntries(l: LogState, since: nat, max: Option<nat>, w: Weigh): Option<seq<Entry>>
    requires LogOk(l) && CursorsOk(l)
  {
    var offset := Max(since + 1, Abs(l).base + 1);
    var high := Min(l.committed, l.persisted) + 1;
    if high > offset then Some(LimitSize(Range(Abs(l), offset, high), max, w)) else None
  }

  // ----- comparing with entries from a leader

  /** The index of the first entry that the log does not hold, or zero. */
  function FindConflict(l: LogState, ents: seq<Entry>): nat
    requires LogOk(l)
  {
    if ents == [] then 0
    else if !MatchTerm(l, ents[0].index, ents[0].term) then ents[0].index
    else FindConflict(l, ents[1..])
  }

  // ----- operations; a `fatal!` or a failed assertion is `Fatal`

  datatype Outcome = Done(state: LogState) | Fatal

  function CommitTo(l: LogState, to: nat): Outcome
    requires l.tail.offset >= 1
  {
    if l.committed >= to then Done(l)
    else if LastIndex(l) < to then Fatal
    else Done(l.(committed := to))
  }

  function Append(l: LogState, ents: seq<Entry>): (r: Outcome)
    ensures l.tail.offset >= 1 && r.Done? ==> r.state.tail.offset >= 1
  {
    if ents == [] then Done(l)
    else if ents[0].index <= l.committed || ents[0].index > l.tail.offset + |l.tail.entries| then Fatal
    else Done(l.(tail := TruncateAndAppend(l.tail, ents)))
  }

  /** The new entries from the conflict on replace the old ones, and do not count as persisted. */
  function AppendFrom(l: LogState, idx: nat, ci: nat, ents: seq<Entry>): (r: Outcome)
    ensures l.tail.offset >= 1 && r.Done? ==> r.state.tail.offset >= 1
  {
    if ci == 0 then Done(l)
    else if ci <= l.committed || ci <= idx || ci - idx - 1 > |ents| then Fatal
    else
      match Append(l, ents[ci - idx - 1..])
      case Fatal => Fatal
      case Done(l1) => Done(if l1.persisted > ci - 1 then l1.(persisted := ci - 1) else l1)
  }

  function MaybeAppend(l: LogState, idx: nat, term: nat, commit: nat, ents: seq<Entry>): Outcome
    requires LogOk(l)
  {
    if !MatchTerm(l, idx, term) then Done(l)
    else
      match AppendFrom(l, idx, FindConflict(l, ents), ents)
      case Fatal => Fatal
      case Done(l1) => CommitTo(l1, Min(commit, idx + |ents|))
  }

  function MaybeCommit(l: LogState, i: nat, t: nat): Outcome
    requires LogOk(l)
  {
    if i > l.committed && MatchTerm(l, i, t) then CommitTo(l, i) else Done(l)
  }

  function AppliedTo(l: LogState, i: nat): Outcome {
    if i == 0 then Done(l)
    else if i > Min(l.committed, l.persisted) || i < l.applied then Fatal
    else Done(l.(applied := i))
  }

  /** Only what has left the tail, and is still in the store with its term, becomes persisted. */
  function MaybePersist(l: LogState, i: nat, t: nat): LogState
    requires LogOk(l)
  {
    var first := if l.tail.snap.Some? then l.tail.snap.value.index else l.tail.offset;
    if i > l.persisted && i < first && StoreTerm(l.store, i) == Ok(t) then l.(persisted := i) else l
  }

  function MaybePersistSnap(l: LogState, i: nat): Outcome {
    if i <= l.persisted then Done(l)
    else if i > l.committed || i >= l.tail.offset then Fatal
    else Done(l.(persisted := i))
  }

  function Restore(l: LogState, s: Snapshot): Outcome {
    if s.index < l.committed then Fatal
    else Done(LogState(l.store, UnstableRestore(l.tail, s), s.index,
                       if l.persisted > l.committed then l.committed else l.persisted, l.applied))
  }

  function StableSnap(l: LogState, i: nat): Outcome {
    if l.tail.snap.None? || l.tail.snap.value.index != i then Fatal
    else Done(l.(tail := l.tail.(snap := None)))
  }

  function StableTo(l: LogState, i: nat, t: nat): Outcome {
    if l.tail.snap.Some? || l.tail.entries == [] then Fatal
    else
      var e := l.tail.entries[|l.tail.entries| - 1];
      if e.index != i || e.term != t then Fatal else Done(l.(tail := StableEntries(l.tail)))
  }
}
