/** The log of the step function and the log of store and tail are the same log. */
module NodeLog {
  import opened Types
  import opened LogModel
  import opened LogRuns
  import RaftNode

  /** Node `n` has the log that `l` stands for, and its cursors. */
  predicate Agrees(n: RaftNode.Node, l: LogState)
    requires LogOk(l)
  {
    Abs(l) == Log(0, 0, n.log) && n.committed == l.committed && n.persisted == l.persisted
  }

  lemma TermsAgree(n: RaftNode.Node, l: LogState, i: nat)
    requires LogOk(l) && Agrees(n, l)
    ensures Term(l, i) == Ok(RaftNode.TermAt(n.log, i))
  {
    TermRefines(l, i);
  }

  lemma {:induction false} ConflictsAgree(n: RaftNode.Node, l: LogState, ents: seq<Entry>)
    requires LogOk(l) && Agrees(n, l)
    ensures FindConflict(l, ents) == RaftNode.FindConflict(n.log, ents)
  {
    if ents != [] {
      TermsAgree(n, l, ents[0].index);
      ConflictsAgree(n, l, ents[1..]);
    }
  }

  /** Taking over entries gives the same log, and fails in the same cases. */
  lemma AppendFromAgrees(n: RaftNode.Node, l: LogState, idx: nat, ents: seq<Entry>)
    requires LogOk(l) && CursorsOk(l) && Agrees(n, l) && RaftNode.Follows(ents, idx)
    ensures var r := AppendFrom(l, idx, FindConflict(l, ents), ents);
            var r' := RaftNode.AppendFrom(n, idx, ents);
            && (r.Fatal? <==> r'.Panic?)
            && (r.Done? ==> LogOk(r.state) && Agrees(r'.node, r.state))
  {
    hide LogOk, CursorsOk, Abs, FindConflict, RaftNode.FindConflict, Agrees, AppendFrom, RaftNode.AppendFrom;
    var ci := FindConflict(l, ents);
    ConflictsAgree(n, l, ents);
    ConflictIsAfter(l, idx, ents);
    if ci == 0 {
      NothingToAppend(n, l, idx, ents);
    } else if ci > l.committed && ci <= Last(Abs(l)) + 1 {
      ReplaceAgrees(n, l, idx, ci, ents);
    } else {
      AppendFromFails(n, l, idx, ci, ents);
    }
  }

  lemma NothingToAppend(n: RaftNode.Node, l: LogState, idx: nat, ents: seq<Entry>)
    requires RaftNode.Follows(ents, idx)
    ensures AppendFrom(l, idx, 0, ents) == Done(l)
    ensures RaftNode.FindConflict(n.log, ents) == 0 ==> RaftNode.AppendFrom(n, idx, ents) == RaftNode.Ok(n, {})
  {
    hide RaftNode.FindConflict;
  }

  lemma AppendFromFails(n: RaftNode.Node, l: LogState, idx: nat, ci: nat, ents: seq<Entry>)
    requires LogOk(l) && Agrees(n, l) && RaftNode.Follows(ents, idx)
    requires ci == RaftNode.FindConflict(n.log, ents) && idx < ci <= idx + |ents| && ents[ci - idx - 1].index == ci
    requires ci <= l.committed || ci > Last(Abs(l)) + 1
    ensures AppendFrom(l, idx, ci, ents).Fatal? && RaftNode.AppendFrom(n, idx, ents).Panic?
  {
    EndOfTail(l);
    IndexesRefine(l);
    hide RaftNode.FindConflict, LogOk, Abs, RaftNode.Follows;
    assert ents[ci - idx - 1..][0].index == ci;
  }

  lemma ReplaceAgrees(n: RaftNode.Node, l: LogState, idx: nat, ci: nat, ents: seq<Entry>)
    requires LogOk(l) && CursorsOk(l) && Agrees(n, l) && RaftNode.Follows(ents, idx)
    requires ci == RaftNode.FindConflict(n.log, ents) && idx < ci <= idx + |ents| && ents[ci - idx - 1].index == ci
    requires l.committed < ci <= Last(Abs(l)) + 1
    ensures var r := AppendFrom(l, idx, ci, ents);
            var r' := RaftNode.AppendFrom(n, idx, ents);
            r.Done? && r'.Ok? && LogOk(r.state) && Agrees(r'.node, r.state)
  {
    FollowsIndexed(ents, idx);
    var rest := ents[ci - idx - 1..];
    assert rest[0].index == ci;
    hide RaftNode.FindConflict, LogOk, Abs, RaftNode.Follows, AppendFrom, RaftNode.AppendFrom, Indexed, CursorsOk, Advances;
    ReplaceFromSound(l, idx, ci, ents);
    NodeReplaces(n, idx, ci, ents);
    ReplacedIs(n.log, rest, ci);
    hide Replaced;
  }

  lemma FollowsIndexed(ents: seq<Entry>, idx: nat)
    requires RaftNode.Follows(ents, idx)
    ensures Indexed(ents, idx)
  {
  }

  lemma ReplacedIs(log: seq<Entry>, rest: seq<Entry>, ci: nat)
    requires rest != [] && rest[0].index == ci && 0 < ci <= |log| + 1
    ensures Replaced(Log(0, 0, log), rest) == Log(0, 0, log[..ci - 1] + rest)
  {
  }

  lemma NodeReplaces(n: RaftNode.Node, idx: nat, ci: nat, ents: seq<Entry>)
    requires RaftNode.Follows(ents, idx) && ci == RaftNode.FindConflict(n.log, ents)
    requires idx < ci <= idx + |ents| && n.committed < ci <= |n.log| + 1
    ensures RaftNode.AppendFrom(n, idx, ents) ==
            RaftNode.Ok(n.(log := n.log[..ci - 1] + ents[ci - idx - 1..],
                           persisted := if n.persisted > ci - 1 then ci - 1 else n.persisted), {})
  {
    hide RaftNode.FindConflict, RaftNode.Follows;
  }

  lemma {:induction false} ConflictIsAfter(l: LogState, idx: nat, ents: seq<Entry>)
    requires LogOk(l) && Indexed(ents, idx)
    ensures var ci := FindConflict(l, ents);
            ci != 0 ==> idx < ci <= idx + |ents| && ents[ci - idx - 1].index == ci
    decreases |ents|
  {
    hide MatchTerm;
    if ents != [] && MatchTerm(l, ents[0].index, ents[0].term) {
      IndexedSub(ents, idx, 1);
      ConflictIsAfter(l, idx + 1, ents[1..]);
    }
  }

  lemma CommitsAgree(n: RaftNode.Node, l: LogState, i: nat, t: nat)
    requires LogOk(l) && Agrees(n, l) && t > 0
    ensures var r := CommitTo(l, i);
            var r' := RaftNode.CommitTo(n, i);
            (r.Fatal? <==> r'.Panic?) && (r.Done? ==> Agrees(r'.node, r.state))
    ensures MaybeCommit(l, i, t).Done? && Agrees(RaftNode.MaybeCommitAt(n, i, t), MaybeCommit(l, i, t).state)
  {
    TermsAgree(n, l, i);
    IndexesRefine(l);
  }

  /** Handling an append is `maybe_append` on the log of store and tail: the logs and cursors stay the same,
      both fail alike, and the answer acknowledges the last new index exactly if the anchor matches. */
  lemma HandleAppendAgrees(n: RaftNode.Node, l: LogState, m: RaftNode.Msg)
    requires LogOk(l) && CursorsOk(l) && Agrees(n, l)
    requires m.Append? && RaftNode.Follows(m.entries, m.index) && m.index >= l.committed
    ensures var r := MaybeAppend(l, m.index, m.logTerm, m.commit, m.entries);
            var r' := RaftNode.HandleAppend(n, m);
            && (r.Fatal? <==> r'.Panic?)
            && (r.Done? ==> LogOk(r.state) && Agrees(r'.node, r.state))
            && (r.Done? && MatchTerm(l, m.index, m.logTerm) ==>
                  r'.out == {RaftNode.AppendResp(n.id, m.from, n.term, m.index + |m.entries|, false, 0, 0, r.state.committed)})
            && (r.Done? && !MatchTerm(l, m.index, m.logTerm) ==>
                  r.state == l && exists hint: nat, t: nat ::
                    r'.out == {RaftNode.AppendResp(n.id, m.from, n.term, m.index, true, hint, t, l.committed)})
  {
    TermsAgree(n, l, m.index);
    if MatchTerm(l, m.index, m.logTerm) {
      MatchedAgrees(n, l, m);
    } else {
      ConflictByTermAgrees(n, l, Min(m.index, |n.log|), m.logTerm);
      var hint := RaftNode.FindConflictByTerm(n.log, Min(m.index, |n.log|), m.logTerm);
      hide Abs, LogOk, CursorsOk, RaftNode.FindConflictByTerm, RaftNode.AppendFrom, AppendFrom, RaftNode.Follows;
      assert RaftNode.HandleAppend(n, m).out ==
             {RaftNode.AppendResp(n.id, m.from, n.term, m.index, true, hint.0, hint.1.value, l.committed)};
    }
  }

  lemma MatchedAgrees(n: RaftNode.Node, l: LogState, m: RaftNode.Msg)
    requires m.Append? && RaftNode.Follows(m.entries, m.index) && m.index >= l.committed
    requires LogOk(l) && CursorsOk(l) && Agrees(n, l) && MatchTerm(l, m.index, m.logTerm)
    requires RaftNode.TermAt(n.log, m.index) == m.logTerm
    ensures var r := MaybeAppend(l, m.index, m.logTerm, m.commit, m.entries);
            var r' := RaftNode.HandleAppend(n, m);
            && (r.Fatal? <==> r'.Panic?)
            && (r.Done? ==>
                  && LogOk(r.state) && Agrees(r'.node, r.state)
                  && r'.out == {RaftNode.AppendResp(n.id, m.from, n.term, m.index + |m.entries|, false, 0, 0, r.state.committed)})
  {
    assert n.committed == l.committed;
    hide *;
    AppendFromAgrees(n, l, m.index, m.entries);
    KeepsIdentity(n, m.index, m.entries);
    var x, x' := AppendFrom(l, m.index, FindConflict(l, m.entries), m.entries), RaftNode.AppendFrom(n, m.index, m.entries);
    if x.Done? {
      CommitToAgrees(x'.node, x.state, UpTo(m));
    }
    MaybeAppendIs(l, m);
    NodeAppendIs(n, m);
  }

  /** How far an append may commit. */
  function UpTo(m: RaftNode.Msg): (to: nat)
    requires m.Append?
    ensures to == Min(m.commit, m.index + |m.entries|)
  {
    Min(m.commit, m.index + |m.entries|)
  }

  lemma MaybeAppendIs(l: LogState, m: RaftNode.Msg)
    requires m.Append? && LogOk(l) && MatchTerm(l, m.index, m.logTerm)
    ensures MaybeAppend(l, m.index, m.logTerm, m.commit, m.entries) ==
            match AppendFrom(l, m.index, FindConflict(l, m.entries), m.entries)
            case Fatal => Fatal
            case Done(x) => CommitTo(x, UpTo(m))
  {
  }

  lemma NodeAppendIs(n: RaftNode.Node, m: RaftNode.Msg)
    requires m.Append? && RaftNode.Follows(m.entries, m.index) && m.index >= n.committed
    requires RaftNode.TermAt(n.log, m.index) == m.logTerm
    ensures RaftNode.HandleAppend(n, m) ==
            match RaftNode.AppendFrom(n, m.index, m.entries)
            case Panic => RaftNode.Panic
            case Ok(x, _) =>
              match RaftNode.CommitTo(x, UpTo(m))
              case Panic => RaftNode.Panic
              case Ok(y, _) =>
                RaftNode.Ok(y, {RaftNode.AppendResp(n.id, m.from, n.term, m.index + |m.entries|, false, 0, 0, y.committed)})
  {
    hide RaftNode.AppendFrom, RaftNode.CommitTo, RaftNode.Follows, RaftNode.FindConflictByTerm, RaftNode.TermAt;
  }

  lemma KeepsIdentity(n: RaftNode.Node, index: nat, ents: seq<Entry>)
    requires RaftNode.Follows(ents, index)
    ensures var r := RaftNode.AppendFrom(n, index, ents); r.Ok? ==> r.node.id == n.id && r.node.term == n.term
  {
    hide RaftNode.FindConflict, RaftNode.Follows;
  }

  lemma CommitToAgrees(n: RaftNode.Node, l: LogState, to: nat)
    requires LogOk(l) && Agrees(n, l)
    ensures var r, r' := CommitTo(l, to), RaftNode.CommitTo(n, to);
            && (r.Fatal? <==> r'.Panic?)
            && (r.Done? ==>
                  && LogOk(r.state) && Agrees(r'.node, r.state) && r'.node.committed == r.state.committed)
  {
    IndexesRefine(l);
    if CommitTo(l, to).Done? {
      LogOkSame(l, CommitTo(l, to).state);
    }
    hide LogOk, Abs;
  }

  /** A leader's new entries go to the end of both logs. */
  lemma LeaderAppendAgrees(n: RaftNode.Node, l: LogState, ents: seq<Entry>)
    requires LogOk(l) && CursorsOk(l) && Agrees(n, l) && Indexed(ents, |n.log|)
    ensures var r := Append(l, ents);
            r.Done? && LogOk(r.state) && Agrees(n.(log := n.log + ents), r.state)
  {
    IndexesRefine(l);
    LeaderAppendSound(l, ents);
    AppendSound(l, ents);
    hide LogOk, CursorsOk, Abs;
  }

  /** The search by term ends at the greatest index up to `i` whose term is at most `t`; on the log of store
      and tail `LogClasses.RaftLog.FindConflictByTerm` promises the same. */
  lemma {:induction false} ConflictByTermAgrees(n: RaftNode.Node, l: LogState, i: nat, t: nat)
    requires LogOk(l) && Agrees(n, l)
    ensures var r := RaftNode.FindConflictByTerm(n.log, i, t);
            && (i > Last(Abs(l)) ==> r == (i, None))
            && (i <= Last(Abs(l)) ==>
                  && r.0 <= i && r.1 == Some(TermOf(Abs(l), r.0)) && TermOf(Abs(l), r.0) <= t
                  && forall j :: r.0 < j <= i ==> TermOf(Abs(l), j) > t)
    decreases i
  {
    if i <= |n.log| && RaftNode.TermAt(n.log, i) > t {
      ConflictByTermAgrees(n, l, i - 1, t);
    }
  }

  /** An index that may be marked as persisted moves the persisted index of both, and nothing else. */
  lemma PersistAgrees(n: RaftNode.Node, l: LogState, i: nat, t: nat)
    requires LogOk(l) && CursorsOk(l) && Agrees(n, l) && n.role != RaftNode.Leader
    ensures var l' := MaybePersist(l, i, t);
            LogOk(l') && Agrees(if l'.persisted > l.persisted then RaftNode.PersistTo(n, i, 0) else n, l')
    ensures MaybePersist(l, i, t).persisted > l.persisted ==> i <= |n.log|
  {
    PersistedSound(l, i, t);
  }
}
