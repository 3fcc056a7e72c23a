/** Runs of a node and its application, and what holds in every state of them. */
module PipelineRuns {
  import opened Types
  import opened LogModel
  import opened LogRuns
  import opened Pipeline

  /** The node, the ready that is being handled, and what the application got so far. Below `floor`
      the application's state comes from a snapshot or from before the start. */
  datatype Sys = Sys(raw: Raw, rd: Option<Ready>, written: bool, handed: seq<Entry>, floor: nat)

  datatype Event =
    | Receive(op: LogOp, term: nat, vote: Id)
    | Win
    | Resign(term: nat, vote: Id)
    | LeaderCommit(mci: nat)
    | ProposeBatch(joint: bool, ps: seq<Proposal>)
    | TakeReady
    | Write
    | AdvanceAsync
    | AdvanceSync(mci: nat)
    | Persisted(number: nat, mci: nat)
    | Applied(index: nat, autoLeave: bool)

  // ----- the initial state

  /** A node starts with its store's log; what it applied before is committed and persisted. If it was not
      told what that was, the entries are handed out from the store's snapshot on. */
  predicate Init(s: Sys) {
    && LogOk(s.raw.log) && CursorsOk(s.raw.log)
    && s.raw.log.tail.snap.None? && s.raw.log.tail.entries == []
    && !s.raw.leader && !s.raw.prevLeader
    && s.raw.records == [] && s.raw.maxNumber == 0
    && s.raw.prevHard == HardState(s.raw)
    && s.raw.since <= Min(s.raw.log.committed, s.raw.log.persisted)
    && s.raw.log.applied <= Max(s.raw.since, Abs(s.raw.log).base)
    && (s.raw.since == 0 || s.raw.log.applied <= s.raw.since)
    && s.rd.None? && !s.written && s.handed == []
    && s.floor == Max(s.raw.since, Abs(s.raw.log).base)
  }

  // ----- events

  predicate TermsBelow(g: Log, term: nat) {
    forall k :: 0 <= k < |g.entries| ==> g.entries[k].term < term
  }

  /** Between a ready and its advance the node takes no other input. A candidate that wins has persisted
      its log, and the application has reported so. */
  predicate CanHappen(s: Sys, e: Event)
    requires LogOk(s.raw.log)
  {
    var r := s.raw;
    match e
    case Receive(op, _, _) =>
      && s.rd.None? && !r.leader
      && (op.TakeAppend? || op.Commit? || op.CommitAt? || op.RestoreFrom?)
      && Enabled(r.log, op)
      && (op.RestoreFrom? ==> op.snap.index > Abs(r.log).base)
    case Win =>
      && s.rd.None? && !r.leader && r.term > 0 && r.log.persisted == LastIndex(r.log)
      && TermsBelow(Abs(r.log), r.term)
      && forall x :: x in r.records ==> x.last.None? && x.snap.None?
    case Resign(_, _) => s.rd.None? && r.leader
    case LeaderCommit(_) => s.rd.None? && r.leader
    case ProposeBatch(_, ps) => s.rd.None? && r.leader && ps != []
    case TakeReady => s.rd.None?
    case Write => s.rd.Some? && !s.written
    case AdvanceAsync => s.written
    case AdvanceSync(_) => s.written
    case Persisted(number, _) => s.rd.Some? ==> number < s.rd.value.number
    case Applied(index, _) => s.rd.None? && (index == 0 || r.log.applied <= index <= Min(r.since, Min(r.log.committed, r.log.persisted)))
  }

  function WithLog(r: Raw, o: Outcome): Option<Raw> {
    if o.Fatal? then None else Some(r.(log := o.state))
  }

  /** The application writes the ready's snapshot, then its entries. */
  function WriteAll(l: LogState): Outcome
    requires LogOk(l)
  {
    if l.tail.snap.None? then Do(l, WriteEntries)
    else
      match Do(l, WriteSnap)
      case Fatal => Fatal
      case Done(l1) => if StoreOk(l1.store) then Do(l1, WriteEntries) else Fatal
  }

  function WithRaw(s: Sys, o: Option<Raw>): Option<Sys> {
    if o.None? then None else Some(s.(raw := o.value))
  }

  /** The state after an event; none if an assertion of the node fails. */
  function Happens(c: Limits, s: Sys, e: Event): Option<Sys>
    requires LogOk(s.raw.log) && CursorsOk(s.raw.log)
  {
    var r := s.raw;
    match e
    case Receive(op, term, vote) => WithRaw(s, WithLog(r.(term := term, vote := vote), Do(r.log, op)))
    case Win => WithRaw(s, Lead(c, r))
    case Resign(term, vote) => Some(s.(raw := r.(term := term, vote := vote, leader := false, pendingConf := 0)))
    case LeaderCommit(mci) => WithRaw(s, WithLog(r, MaybeCommit(r.log, mci, r.term)))
    case ProposeBatch(joint, ps) => Some(s.(raw := Propose(c, r, joint, ps)))
    case TakeReady =>
      (match MakeReady(c, r)
       case None => None
       case Some((r1, rd)) =>
         Some(Sys(r1, Some(rd), false, s.handed + rd.committed,
                  if rd.snap.Some? then Max(s.floor, rd.snap.value.index) else s.floor)))
    case Write =>
      (match WithLog(r, WriteAll(r.log))
       case None => None
       case Some(r1) => Some(s.(raw := r1, written := true)))
    case AdvanceAsync =>
      if s.rd.None? then None
      else WithRaw(s.(rd := None, written := false), CommitReady(r, s.rd.value))
    case AdvanceSync(mci) =>
      if s.rd.None? then None
      else
        (match AdvanceAppend(c, r, s.rd.value, mci)
         case None => None
         case Some((r1, committed)) => Some(Sys(r1, None, false, s.handed + committed, s.floor)))
    case Persisted(number, mci) => WithRaw(s, OnPersist(r, number, mci))
    case Applied(index, autoLeave) => WithRaw(s, CommitApply(c, r, index, autoLeave))
  }

  // ----- the invariant

  function Top(s: Sys): nat {
    Max(s.raw.since, s.floor)
  }

  /** The last snapshot that the records ask to persist. */
  function SnapAfter(records: seq<Record>, acc: Option<nat>): Option<nat> {
    if records == [] then acc
    else SnapAfter(records[1..], if records[0].snap.Some? then records[0].snap else acc)
  }

  /** The application got index `i`, counting back from the last one. */
  predicate GotAt(handed: seq<Entry>, since: nat, i: nat)
    requires i <= since
  {
    since - i < |handed| && handed[|handed| - 1 - (since - i)].index == i
  }

  /** The application got each index between `floor` and `since` once, in order, and nothing it got was changed. */
  ghost predicate HandedOk(g: Log, handed: seq<Entry>, since: nat, floor: nat, limit: nat) {
    && (forall j, k :: 0 <= j < k < |handed| ==> handed[j].index < handed[k].index)
    && (forall k :: 0 <= k < |handed| ==> handed[k].index <= since && handed[k].index <= limit)
    && (forall i: nat :: floor < i <= since ==> GotAt(handed, since, i))
    && (forall k :: 0 <= k < |handed| && g.base < handed[k].index <= Last(g) ==> At(g, handed[k].index) == handed[k])
  }

  ghost predicate StreamOk(s: Sys)
    requires LogOk(s.raw.log)
  {
    var l := s.raw.log;
    && l.applied <= Top(s) <= l.committed
    && (s.raw.since == 0 || l.applied <= s.raw.since)
    && (s.raw.since < s.floor ==> s.floor <= Abs(l).base)
    && (l.tail.snap.None? ==> Abs(l).base <= Top(s))
    && (l.tail.snap.Some? ==> Top(s) <= l.tail.snap.value.index)
    && (s.raw.since > Min(l.committed, l.persisted) ==> SnapAfter(s.raw.records, None) == Some(s.raw.since))
    && HandedOk(Abs(l), s.handed, s.raw.since, s.floor, Min(l.committed, l.persisted))
  }

  predicate SnapFits(l: LogState, i: nat) {
    0 < i <= l.committed && i < l.tail.offset && (l.tail.snap.Some? ==> i <= l.tail.snap.value.index)
  }

  ghost predicate RecordsOk(s: Sys) {
    var rs := s.raw.records;
    && (forall j, k :: 0 <= j < k < |rs| ==> rs[j].number < rs[k].number)
    && (forall k :: 0 <= k < |rs| ==> rs[k].number <= s.raw.maxNumber)
    && (forall k :: 0 <= k < |rs| && rs[k].snap.Some? ==> SnapFits(s.raw.log, rs[k].snap.value))
    && (s.raw.leader && !s.raw.prevLeader && s.rd.None? ==> forall x :: x in rs ==> x.last.None? && x.snap.None?)
  }

  function SnapIndex(l: LogState): Option<nat> {
    if l.tail.snap.Some? then Some(l.tail.snap.value.index) else None
  }

  /** The store holds everything the tail holds. */
  predicate Stored(l: LogState)
    requires LogOk(l)
  {
    match l.tail.snap
    case Some(s) => l.store == Store(s.index, s.term, l.tail.entries)
    case None => l.tail.entries != [] ==> l.store.entries[l.tail.offset - l.store.base - 1..] == l.tail.entries
  }

  /** The ready being handled is what the tail holds, and the last record describes it. */
  ghost predicate ReadyOk(s: Sys)
    requires LogOk(s.raw.log)
  {
    var r := s.raw;
    && (s.written ==> s.rd.Some? && Stored(r.log))
    && (r.log.tail.snap.Some? && !s.written ==> r.log.store.base < r.log.tail.snap.value.index)
    && (s.rd.Some? ==>
          && s.rd.value.leads == r.leader
          && s.rd.value.number == r.maxNumber
          && r.records != [] && r.records[|r.records| - 1] == Record(r.maxNumber, LastOf(r.log.tail.entries), SnapIndex(r.log))
          && (r.log.tail.snap.Some? ==> r.since == s.floor == r.log.tail.snap.value.index)
          && var h := if s.rd.value.hard.Some? then s.rd.value.hard.value else r.prevHard;
             h.term == r.term && h.vote == r.vote && h.commit <= r.log.committed)
  }

  /** The data after index `i` in the log. */
  function DataAfter(g: Log, i: nat): nat
    requires g.base <= i <= Last(g)
  {
    DataSize(g.entries[i - g.base..])
  }

  /** A leader with a limit counts exactly the data of what is neither from before its election nor handed out. */
  predicate UncommittedOk(c: Limits, r: Raw)
    requires LogOk(r.log)
  {
    r.leader ==>
      && Abs(r.log).base <= r.tailIndex <= Last(Abs(r.log))
      && r.since <= Last(Abs(r.log))
      && (c.maxUncommitted != NO_LIMIT ==> r.uncommitted == DataAfter(Abs(r.log), Max(r.tailIndex, r.since)))
  }

  /** An unapplied membership change at index `i`. */
  predicate Unapplied(r: Raw, i: nat)
    requires LogOk(r.log)
  {
    r.log.applied < i && Abs(r.log).base < i <= Last(Abs(r.log)) && IsConfChange(At(Abs(r.log), i))
  }

  ghost predicate PendingOk(r: Raw)
    requires LogOk(r.log)
  {
    r.leader ==>
      && r.term > 0
      && (forall i: nat :: Unapplied(r, i) ==> i <= r.pendingConf)
      && (forall i: nat, j: nat :: Unapplied(r, i) && At(Abs(r.log), i).term == r.term && Unapplied(r, j) ==> i == j)
  }

  ghost predicate SysOk(c: Limits, s: Sys) {
    && LogOk(s.raw.log) && CursorsOk(s.raw.log)
    && StreamOk(s) && RecordsOk(s) && ReadyOk(s)
    && UncommittedOk(c, s.raw) && PendingOk(s.raw)
  }

  lemma InitOk(c: Limits, s: Sys)
    requires Init(s)
    ensures SysOk(c, s)
  {
  }
}
