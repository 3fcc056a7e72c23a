/** What each operation on the log's cursors does, said by the log it works on (raft-rs/src/raft_log.rs). */
module CursorAnswers {
  import opened Types
  import opened LogModel
  import opened LogRuns

  /** An index is committed exactly if it is past the commit index and the log has that term there. */
  lemma CommitsExactly(l: LogState, i: nat, t: nat)
    requires LogOk(l) && CursorsOk(l) && (t != 0 || i <= Last(Abs(l)))
    ensures MaybeCommit(l, i, t) == Done(l.(committed := if i > l.committed && TermOf(Abs(l), i) == t then i else l.committed))
  {
    TermRefines(l, i);
    IndexesRefine(l);
    hide LogOk, Abs;
  }

  /** The commit index is raised as asked; past the end of the log this fails. */
  lemma CommitToExactly(l: LogState, i: nat)
    requires LogOk(l) && CursorsOk(l)
    ensures CommitTo(l, i) ==
            if i > l.committed && i > Last(Abs(l)) then Fatal else Done(l.(committed := Max(l.committed, i)))
  {
    IndexesRefine(l);
    hide LogOk, Abs;
  }

  /** Applying moves to the index given; zero stands for nothing, and an index that goes back, or past what is
      committed and persisted, fails. */
  lemma AppliesExactly(l: LogState, i: nat)
    ensures AppliedTo(l, i) ==
            if i == 0 then Done(l)
            else if l.applied <= i && i <= l.committed && i <= l.persisted then Done(l.(applied := i))
            else Fatal
  {
  }

  /** With no snapshot waiting, an index becomes persisted exactly if it is past what was, has left the tail,
      and the log has that term there; with one, only what lies before it can. */
  lemma PersistsExactly(l: LogState, i: nat, t: nat)
    requires LogOk(l) && CursorsOk(l)
    ensures var l' := MaybePersist(l, i, t);
            && l' == l.(persisted := l'.persisted)
            && (l.tail.snap.None? ==>
                  l'.persisted == if l.persisted < i < l.tail.offset && Abs(l).base <= i && TermOf(Abs(l), i) == t then i else l.persisted)
            && (l.tail.snap.Some? && i >= l.tail.snap.value.index ==> l'.persisted == l.persisted)
  {
    if l.tail.snap.None? && l.store.base < i < l.tail.offset {
      assert At(Abs(l), i) == l.store.entries[i - l.store.base - 1];
    }
  }

  /** A snapshot that was persisted moves the persisted index up to it; it must be committed, and lie before the
      tail. */
  lemma PersistsSnapExactly(l: LogState, i: nat)
    ensures MaybePersistSnap(l, i) ==
            if i > l.persisted && (i > l.committed || i >= l.tail.offset) then Fatal
            else Done(l.(persisted := Max(l.persisted, i)))
  {
  }
}
