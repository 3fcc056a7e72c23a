/** Every event keeps the pipeline's invariant and fails no assertion. */
module PipelineKeeps {
  import opened Types
  import opened LogModel
  import opened LogRuns
  import opened Pipeline
  import opened PipelineRuns

  // ----- sizes

  lemma {:induction false} DataSizeConcat(a: seq<Entry>, b: seq<Entry>)
    ensures DataSize(a + b) == DataSize(a) + DataSize(b)
  {
    if a == [] {
      assert a + b == b;
    } else {
      DataSizeConcat(a[1..], b);
      assert (a + b)[1..] == a[1..] + b;
    }
  }

  lemma {:induction false} DataSizeStamp(ents: seq<Entry>, term: nat, last: nat)
    ensures DataSize(Stamp(ents, term, last)) == DataSize(ents)
  {
    if ents != [] {
      DataSizeStamp(ents[1..], term, last + 1);
      assert Stamp(ents, term, last)[1..] == Stamp(ents[1..], term, last + 1);
    }
  }

  /** The data after an index splits at any later index. */
  lemma DataAfterSplits(g: Log, i: nat, j: nat)
    requires g.base <= i <= j <= Last(g)
    ensures DataAfter(g, i) == DataSize(Range(g, i + 1, j + 1)) + DataAfter(g, j)
  {
    DataSizeConcat(Range(g, i + 1, j + 1), g.entries[j - g.base..]);
    assert g.entries[i - g.base..] == Range(g, i + 1, j + 1) + g.entries[j - g.base..];
  }

  lemma DataAfterAppend(g: Log, es: seq<Entry>, i: nat)
    requires g.base <= i <= Last(g)
    ensures DataAfter(g.(entries := g.entries + es), i) == DataAfter(g, i) + DataSize(es)
  {
    hide DataSize;
    ConcatDrop(g.entries, es, i - g.base);
    DataSizeConcat(g.entries[i - g.base..], es);
  }

  lemma ConcatDrop<T>(a: seq<T>, b: seq<T>, k: nat)
    requires k <= |a|
    ensures (a + b)[k..] == a[k..] + b
  {
  }

  /** The entries are consecutive and start after index `base`. */
  lemma {:induction false} SkipConsecutive(es: seq<Entry>, base: nat, tail: nat)
    requires Indexed(es, base)
    ensures SkipTo(es, tail) == if tail <= base then es else if tail >= base + |es| then [] else es[tail - base..]
    decreases |es|
  {
    if es != [] && es[0].index <= tail {
      IndexedSub(es, base, 1);
      SkipConsecutive(es[1..], base + 1, tail);
    }
  }

  lemma AbsIndexed(l: LogState)
    requires LogOk(l)
    ensures Indexed(Abs(l).entries, Abs(l).base)
  {
    hide ApproxTotal;
  }

  // ----- the stream under changes of the log

  lemma StreamStays(s: Sys, s': Sys)
    requires LogOk(s.raw.log) && LogOk(s'.raw.log) && CursorsOk(s.raw.log) && CursorsOk(s'.raw.log)
    requires StreamOk(s) && Advances(s.raw.log, s'.raw.log) && s'.raw.log.applied == s.raw.log.applied
    requires s'.raw.since == s.raw.since && s'.floor == s.floor && s'.handed == s.handed
    requires SnapAfter(s'.raw.records, None) == SnapAfter(s.raw.records, None)
    requires s'.raw.log.tail.snap.None? ==> Abs(s'.raw.log).base <= Top(s)
    requires s'.raw.log.tail.snap.Some? ==> Top(s) <= s'.raw.log.tail.snap.value.index
    ensures StreamOk(s')
  {
    hide LogOk, Abs, GotAt, SnapAfter;
    var g, g' := Abs(s.raw.log), Abs(s'.raw.log);
    forall k | 0 <= k < |s.handed| && g'.base < s.handed[k].index <= Last(g')
      ensures At(g', s.handed[k].index) == s.handed[k]
    {
      assert At(g, s.handed[k].index) == s.handed[k];
    }
  }

  /** The next page: consecutive entries right after what the application has. */
  lemma NextPage(c: Limits, l: LogState, since: nat, floor: nat, es: seq<Entry>)
    requires LogOk(l) && CursorsOk(l) && since <= l.committed && floor <= l.committed
    requires Abs(l).base <= Max(since, floor) && (since < floor ==> floor <= Abs(l).base)
    requires var next := NextEntries(l, since, Some(c.pageSize), c.w); es == if next.Some? then next.value else []
    ensures es != [] <==> Max(since, floor) < Min(l.committed, l.persisted)
    ensures es != [] ==>
              && Max(since, floor) + |es| <= Min(l.committed, l.persisted)
              && es == Range(Abs(l), Max(since, floor) + 1, Max(since, floor) + |es| + 1)
              && Indexed(es, Max(since, floor))
  {
    hide LogOk, NextEntries, Abs, Indexed, Range;
    AbsIndexed(l);
    PagePrefix(c, l, since);
    var lo, hi := Max(since, floor) + 1, Min(l.committed, l.persisted) + 1;
    if hi > lo {
      RangePrefix(Abs(l), lo, hi, es);
    }
  }

  lemma PagePrefix(c: Limits, l: LogState, since: nat)
    requires LogOk(l) && CursorsOk(l)
    ensures var lo, hi := Max(since + 1, Abs(l).base + 1), Min(l.committed, l.persisted) + 1;
            var next := NextEntries(l, since, Some(c.pageSize), c.w);
            && (next.Some? <==> hi > lo)
            && (next.Some? ==> hi <= Last(Abs(l)) + 1 && next.value != [] && next.value <= Range(Abs(l), lo, hi))
  {
    var lo, hi := Max(since + 1, Abs(l).base + 1), Min(l.committed, l.persisted) + 1;
    CommittedInLog(l);
    hide LogOk, CursorsOk, Abs, LimitSize, Range;
    if hi > lo {
      RangeLength(Abs(l), lo, hi);
    }
  }

  lemma RangeLength(g: Log, lo: nat, hi: nat)
    requires g.base < lo <= hi <= Last(g) + 1
    ensures |Range(g, lo, hi)| == hi - lo
  {
  }

  lemma RangePrefix(g: Log, lo: nat, hi: nat, es: seq<Entry>)
    requires g.base < lo <= hi <= Last(g) + 1 && es <= Range(g, lo, hi) && Indexed(g.entries, g.base)
    ensures lo + |es| <= hi && es == Range(g, lo, lo + |es|) && Indexed(es, lo - 1)
  {
    IndexedSub(g.entries, g.base, lo - g.base - 1);
    IndexedSub(g.entries[lo - g.base - 1..], lo - 1, |es|);
    assert es == g.entries[lo - g.base - 1..][..|es|];
  }

  lemma HandedGrows(l: LogState, handed: seq<Entry>, since: nat, floor: nat, es: seq<Entry>)
    requires LogOk(l) && CursorsOk(l)
    requires HandedOk(Abs(l), handed, since, floor, Min(l.committed, l.persisted))
    requires es != [] && Abs(l).base <= Max(since, floor) && Max(since, floor) + |es| <= Min(l.committed, l.persisted)
    requires es == Range(Abs(l), Max(since, floor) + 1, Max(since, floor) + |es| + 1) && Indexed(es, Max(since, floor))
    ensures es[|es| - 1].index == Max(since, floor) + |es|
    ensures HandedOk(Abs(l), handed + es, es[|es| - 1].index, floor, Min(l.committed, l.persisted))
  {
    hide LogOk, Abs;
    var since' := es[|es| - 1].index;
    var all := handed + es;
    forall i: nat | floor < i <= since'
      ensures GotAt(all, since', i)
    {
      if i <= since {
        assert GotAt(handed, since, i);
      }
    }
    forall k | 0 <= k < |all| && Abs(l).base < all[k].index <= Last(Abs(l))
      ensures At(Abs(l), all[k].index) == all[k]
    {
      if k >= |handed| {
        assert all[k] == es[k - |handed|];
      }
    }
  }

  /** What a page takes away from the data after index `tail`. */
  lemma SkippedSize(g: Log, lo: nat, es: seq<Entry>, tail: nat)
    requires g.base <= lo && lo + |es| <= Last(g) && g.base <= tail <= Last(g)
    requires es == Range(g, lo + 1, lo + |es| + 1) && Indexed(es, lo)
    ensures DataAfter(g, Max(tail, lo)) == DataSize(SkipTo(es, tail)) + DataAfter(g, Max(tail, lo + |es|))
  {
    hide SkipTo, Indexed, DataAfter, Range;
    SkipConsecutive(es, lo, tail);
    if tail >= lo + |es| {
      assert DataSize([]) == 0;
    } else {
      hide DataSize;
      DataAfterSplits(g, Max(tail, lo), lo + |es|);
      if tail > lo {
        RangeDrop(g, lo + 1, tail + 1, lo + |es| + 1);
      }
    }
  }

  lemma RangeDrop(g: Log, lo: nat, mid: nat, hi: nat)
    requires g.base < lo <= mid <= hi <= Last(g) + 1
    ensures |Range(g, lo, hi)| == hi - lo && Range(g, lo, hi)[mid - lo..] == Range(g, mid, hi)
  {
  }

  /** Handing out a page reduces the uncommitted size by exactly what left it. */
  lemma ReduceExact(c: Limits, r: Raw, floor: nat, es: seq<Entry>)
    requires LogOk(r.log) && UncommittedOk(c, r) && es != []
    requires Abs(r.log).base <= Max(r.since, floor) && (r.since < floor ==> floor <= Abs(r.log).base)
    requires Max(r.since, floor) + |es| <= Last(Abs(r.log))
    requires es == Range(Abs(r.log), Max(r.since, floor) + 1, Max(r.since, floor) + |es| + 1) && Indexed(es, Max(r.since, floor))
    ensures Reduce(c, r, es).Some?
    ensures var r' := Reduce(c, r, es).value;
            r' == r.(uncommitted := r'.uncommitted) && UncommittedOk(c, r'.(since := Max(r.since, floor) + |es|))
  {
    hide LogOk, Abs, DataAfter, SkipTo, Range, Indexed, DataSize;
    if r.leader && c.maxUncommitted != NO_LIMIT {
      SkippedSize(Abs(r.log), Max(r.since, floor), es, r.tailIndex);
    }
  }

  /** The stream before a page is handed out. */
  ghost predicate MayHandOut(c: Limits, r: Raw, handed: seq<Entry>, floor: nat) {
    && LogOk(r.log) && CursorsOk(r.log)
    && r.since <= r.log.committed && floor <= r.log.committed
    && Abs(r.log).base <= Max(r.since, floor) && (r.since < floor ==> floor <= Abs(r.log).base)
    && HandedOk(Abs(r.log), handed, r.since, floor, Min(r.log.committed, r.log.persisted))
    && UncommittedOk(c, r)
  }

  lemma LightSound(c: Limits, r: Raw, handed: seq<Entry>, floor: nat)
    requires MayHandOut(c, r, handed, floor)
    ensures LightReady(c, r).Some?
    ensures var r', es := LightReady(c, r).value.0, LightReady(c, r).value.1;
            && r' == r.(uncommitted := r'.uncommitted, since := r'.since)
            && MayHandOut(c, r', handed + es, floor)
            && (es == [] ==> r' == r)
            && (es != [] ==> Max(r.since, floor) < r'.since <= Min(r.log.committed, r.log.persisted))
            && (es != [] <==> Max(r.since, floor) < Min(r.log.committed, r.log.persisted))
  {
    hide LogOk, CursorsOk, Abs, HandedOk, NextEntries, UncommittedOk, Reduce, Range, Indexed, LightReady;
    var next := NextEntries(r.log, r.since, Some(c.pageSize), c.w);
    var es := if next.Some? then next.value else [];
    LightIs(c, r, es);
    NextPage(c, r.log, r.since, floor, es);
    if es == [] {
      assert handed + es == handed;
      ReduceNothing(c, r);
    } else {
      CommittedInLog(r.log);
      HandedGrows(r.log, handed, r.since, floor, es);
      ReduceExact(c, r, floor, es);
    }
  }

  lemma CommittedInLog(l: LogState)
    requires LogOk(l) && CursorsOk(l)
    ensures Abs(l).base <= l.committed <= Last(Abs(l))
  {
  }

  lemma LightIs(c: Limits, r: Raw, es: seq<Entry>)
    requires LogOk(r.log) && CursorsOk(r.log)
    requires var next := NextEntries(r.log, r.since, Some(c.pageSize), c.w); es == if next.Some? then next.value else []
    ensures Reduce(c, r, es).Some? ==>
              LightReady(c, r) ==
              var r1 := Reduce(c, r, es).value;
              if es == [] then Some((r1, es))
              else if es[|es| - 1].index <= r1.since then None
              else Some((r1.(since := es[|es| - 1].index), es))
  {
  }

  lemma ReduceNothing(c: Limits, r: Raw)
    ensures Reduce(c, r, []) == Some(r)
  {
  }
}
