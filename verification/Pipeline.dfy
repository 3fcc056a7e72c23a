/** One node and its application: the ready pipeline, the size of uncommitted proposals and the
    pending membership change (raft-rs/src/raw_node.rs, raft-rs/src/raft.rs). */
module Pipeline {
  import opened Types
  import opened LogModel
  import opened LogRuns

  /** `pageSize` limits the committed entries handed out at once, `maxUncommitted` the proposals. */
  datatype Limits = Limits(pageSize: nat, maxUncommitted: nat, w: Weigh)

  datatype Hard = Hard(term: nat, vote: Id, commit: nat)

  /** What a handed-out ready asked to persist: its last entry's index and term, its snapshot's index. */
  datatype Record = Record(number: nat, last: Option<(nat, nat)>, snap: Option<nat>)

  datatype Ready = Ready(number: nat, leads: bool, hard: Option<Hard>, snap: Option<Snapshot>,
                         entries: seq<Entry>, committed: seq<Entry>)

  datatype Raw = Raw(
    log: LogState,
    term: nat,
    vote: Id,
    leader: bool,
    uncommitted: nat,
    tailIndex: nat,
    pendingConf: nat,
    prevLeader: bool,
    prevHard: Hard,
    maxNumber: nat,
    records: seq<Record>,
    since: nat)

  function HardState(r: Raw): Hard {
    Hard(r.term, r.vote, r.log.committed)
  }

  // ----- the size of uncommitted proposals

  function DataSize(ents: seq<Entry>): nat {
    if ents == [] then 0 else |ents[0].data| + DataSize(ents[1..])
  }

  /** `maybe_increase_uncommitted_size`: none if the entries are refused. */
  function Increase(c: Limits, r: Raw, ents: seq<Entry>): Option<Raw> {
    var size := DataSize(ents);
    if c.maxUncommitted == NO_LIMIT then Some(r)
    else if size == 0 || r.uncommitted == 0 || size + r.uncommitted <= c.maxUncommitted then
      Some(r.(uncommitted := r.uncommitted + size))
    else None
  }

  /** The entries after the leading ones with an index up to `tail`. */
  function SkipTo(ents: seq<Entry>, tail: nat): seq<Entry> {
    if ents == [] || ents[0].index > tail then ents else SkipTo(ents[1..], tail)
  }

  /** `reduce_uncommitted_size`; none if it would underflow. */
  function Reduce(c: Limits, r: Raw, ents: seq<Entry>): Option<Raw> {
    if !r.leader || c.maxUncommitted == NO_LIMIT || ents == [] then Some(r)
    else
      var size := DataSize(SkipTo(ents, r.tailIndex));
      if size > r.uncommitted then None else Some(r.(uncommitted := r.uncommitted - size))
  }

  // ----- leading

  /** Entries stamped with the leader's term and the next indexes. */
  function Stamp(ents: seq<Entry>, term: nat, last: nat): (s: seq<Entry>)
    ensures |s| == |ents| && Indexed(s, last)
    ensures forall k :: 0 <= k < |s| ==> s[k] == ents[k].(term := term, index := last + 1 + k)
  {
    seq(|ents|, k requires 0 <= k < |ents| => ents[k].(term := term, index := last + 1 + k))
  }

  /** `append_entry`: none if the entries are refused because of their size, or the append fails. */
  function AppendEntry(c: Limits, r: Raw, ents: seq<Entry>): (o: Option<Raw>)
    requires LogOk(r.log)
    ensures o.Some? ==> o.value.log.tail.offset >= 1
  {
    match Increase(c, r, ents)
    case None => None
    case Some(r1) =>
      match Append(r1.log, Stamp(ents, r1.term, LastIndex(r1.log)))
      case Fatal => None
      case Done(l) => Some(r1.(log := l))
  }

  const EMPTY: Entry := Entry(EntryNormal, 0, 0, [], [])

  const LEAVE_JOINT: Entry := Entry(EntryConfChangeV2, 0, 0, [], [])

  /** `become_leader`. */
  function Lead(c: Limits, r: Raw): Option<Raw>
    requires LogOk(r.log)
  {
    var last := LastIndex(r.log);
    if last != r.log.persisted then None
    else AppendEntry(c, r.(leader := true, uncommitted := 0, tailIndex := last, pendingConf := last), [EMPTY])
  }

  /** A proposed entry. For a membership change, `parses` says whether its data can be read, and `leaves`
      whether it asks to leave the joint configuration. */
  datatype Proposal = Proposal(entry: Entry, parses: bool, leaves: bool)

  predicate Unreadable(p: Proposal) {
    IsConfChange(p.entry) && !p.parses
  }

  /** The number of proposals before the first that cannot be read. */
  function Readable(ps: seq<Proposal>): (k: nat)
    ensures k <= |ps| && (k < |ps| ==> Unreadable(ps[k]))
    ensures forall i :: 0 <= i < k ==> !Unreadable(ps[i])
  {
    if ps == [] || Unreadable(ps[0]) then 0 else 1 + Readable(ps[1..])
  }

  predicate Accepts(r: Raw, joint: bool, p: Proposal) {
    r.pendingConf <= r.log.applied && joint == p.leaves
  }

  /** Membership changes that must wait are replaced by empty entries. */
  function Screen(r: Raw, joint: bool, ps: seq<Proposal>, next: nat): (o: (Raw, seq<Entry>))
    ensures o.0 == r.(pendingConf := o.0.pendingConf) && |o.1| == |ps|
    decreases |ps|
  {
    if ps == [] then (r, [])
    else if !IsConfChange(ps[0].entry) then
      var (r1, es) := Screen(r, joint, ps[1..], next + 1);
      (r1, [ps[0].entry] + es)
    else if Accepts(r, joint, ps[0]) then
      var (r1, es) := Screen(r.(pendingConf := next), joint, ps[1..], next + 1);
      (r1, [ps[0].entry] + es)
    else
      var (r1, es) := Screen(r, joint, ps[1..], next + 1);
      (r1, [EMPTY] + es)
  }

  function Screened(r: Raw, joint: bool, ps: seq<Proposal>): (o: (Raw, seq<Entry>))
    requires LogOk(r.log)
    ensures o.0 == r.(pendingConf := o.0.pendingConf) && |o.1| == Readable(ps)
  {
    Screen(r, joint, ps[..Readable(ps)], LastIndex(r.log) + 1)
  }

  /** A batch of proposals: if one cannot be read, or it is too big, it is dropped, but a membership change
      that was recorded stays recorded. */
  function Propose(c: Limits, r: Raw, joint: bool, ps: seq<Proposal>): Raw
    requires LogOk(r.log)
  {
    var (r1, es) := Screened(r, joint, ps);
    if Readable(ps) < |ps| then r1
    else
      match AppendEntry(c, r1, es)
      case None => r1
      case Some(r2) => r2
  }

  /** `commit_apply`; none if `applied` is out of range or the automatic change cannot be appended. */
  function CommitApply(c: Limits, r: Raw, applied: nat, autoLeave: bool): Option<Raw>
    requires LogOk(r.log)
  {
    match AppliedTo(r.log, applied)
    case Fatal => None
    case Done(l) =>
      var r1 := r.(log := l);
      if !(autoLeave && r.log.applied <= r.pendingConf <= applied && r.leader) then Some(r1)
      else
        match AppendEntry(c, r1, [LEAVE_JOINT])
        case None => None
        case Some(r2) => Some(r2.(pendingConf := LastIndex(r2.log)))
  }

  // ----- ready and advance

  /** `gen_light_ready`: the next page of committed entries; none if an assertion fails. */
  function LightReady(c: Limits, r: Raw): Option<(Raw, seq<Entry>)>
    requires LogOk(r.log) && CursorsOk(r.log)
  {
    var next := NextEntries(r.log, r.since, Some(c.pageSize), c.w);
    var ents := if next.Some? then next.value else [];
    match Reduce(c, r, ents)
    case None => None
    case Some(r1) =>
      if ents == [] then Some((r1, ents))
      else if ents[|ents| - 1].index <= r1.since then None
      else Some((r1.(since := ents[|ents| - 1].index), ents))
  }

  predicate HasNext(l: LogState, since: nat)
    requires LogOk(l)
  {
    Min(l.committed, l.persisted) + 1 > Max(since + 1, FirstIndex(l))
  }

  /** On the first ready of a new leader the remaining records must be empty, and are dropped. */
  function Drained(r: Raw): Option<Raw> {
    if r.leader && !r.prevLeader then
      if forall x :: x in r.records ==> x.last.None? && x.snap.None? then Some(r.(records := [])) else None
    else Some(r)
  }

  function LastOf(ents: seq<Entry>): Option<(nat, nat)> {
    if ents == [] then None else Some((ents[|ents| - 1].index, ents[|ents| - 1].term))
  }

  /** The ready moves past a pending snapshot, after which nothing else may be ready to apply. */
  function PastSnapshot(r: Raw): Option<Raw>
    requires LogOk(r.log)
  {
    match r.log.tail.snap
    case None => Some(r)
    case Some(s) => if r.since > s.index || HasNext(r.log, s.index) then None else Some(r.(since := s.index))
  }

  function MakeReady(c: Limits, r: Raw): Option<(Raw, Ready)>
    requires LogOk(r.log) && CursorsOk(r.log)
  {
    match Drained(r.(maxNumber := r.maxNumber + 1))
    case None => None
    case Some(r1) =>
      match PastSnapshot(r1)
      case None => None
      case Some(r2) =>
        match LightReady(c, r2)
        case None => None
        case Some((r3, committed)) =>
          var tail := r.log.tail;
          var rec := Record(r3.maxNumber, LastOf(tail.entries), if tail.snap.Some? then Some(tail.snap.value.index) else None);
          Some((r3.(records := r3.records + [rec]),
                Ready(r3.maxNumber, r.leader, if HardState(r) != r.prevHard then Some(HardState(r)) else None,
                      tail.snap, tail.entries, committed)))
  }

  /** `commit_ready`: the tail's snapshot and entries are in the store now. */
  function CommitReady(r: Raw, rd: Ready): Option<Raw> {
    if r.records == [] || r.records[|r.records| - 1].number != rd.number then None
    else
      var rec := r.records[|r.records| - 1];
      var r1 := r.(prevLeader := rd.leads, prevHard := if rd.hard.Some? then rd.hard.value else r.prevHard);
      var o1 := if rec.snap.Some? then StableSnap(r.log, rec.snap.value) else Done(r.log);
      if o1.Fatal? then None
      else
        var o2 := if rec.last.Some? then StableTo(o1.state, rec.last.value.0, rec.last.value.1) else o1;
        if o2.Fatal? then None else Some(r1.(log := o2.state))
  }

  /** What the records up to a number say was persisted: zero stands for nothing. */
  datatype Popped = Popped(rest: seq<Record>, snap: nat, index: nat, term: nat)

  function PopOne(x: Record, p: Popped): Popped {
    var p1 := if x.snap.Some? then p.(snap := x.snap.value, index := 0, term := 0) else p;
    if x.last.Some? then p1.(index := x.last.value.0, term := x.last.value.1) else p1
  }

  function Pop(records: seq<Record>, number: nat, p: Popped): Popped
    decreases |records|
  {
    if records == [] || records[0].number > number then p.(rest := records)
    else
      Pop(records[1..], number, PopOne(records[0], p))
  }

  /** `on_persist_ready`. A leader whose persisted index moved may commit `mci`. */
  function OnPersist(r: Raw, number: nat, mci: nat): Option<Raw>
    requires LogOk(r.log)
  {
    var p := Pop(r.records, number, Popped([], 0, 0, 0));
    var o1 := if p.snap != 0 then MaybePersistSnap(r.log, p.snap) else Done(r.log);
    if o1.Fatal? then None
    else
      var l2 := if p.index != 0 then MaybePersist(o1.state, p.index, p.term) else o1.state;
      if !(r.leader && l2.persisted > o1.state.persisted) then Some(r.(log := l2, records := p.rest))
      else
        match MaybeCommit(l2, mci, r.term)
        case Fatal => None
        case Done(l3) => Some(r.(log := l3, records := p.rest))
  }

  /** `advance_append`; none if the ready had not been written to the store, or if the hard state is not what was handed out, except for a later commit index. */
  function AdvanceAppend(c: Limits, r: Raw, rd: Ready, mci: nat): Option<(Raw, seq<Entry>)> {
    match CommitReady(r, rd)
    case None => None
    case Some(r1) =>
      if !LogOk(r1.log) then None
      else
        match OnPersist(r1, r1.maxNumber, mci)
        case None => None
        case Some(r2) =>
          if !(LogOk(r2.log) && CursorsOk(r2.log)) then None
          else
            match LightReady(c, r2)
            case None => None
            case Some((r3, committed)) =>
              var hs := HardState(r3);
              if hs.commit < r3.prevHard.commit then None
              else
                var r4 := r3.(prevHard := r3.prevHard.(commit := hs.commit));
                if r4.prevHard != hs then None else Some((r4, committed))
  }
}
