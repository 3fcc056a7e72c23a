/** What a leader knows about one peer, and how it sends entries to it
    (raft-rs/src/tracker/progress.rs, raft-rs/src/raft.rs). */
module Flow {
  import opened Types
  import opened LogModel
  import opened Inflights

  datatype ProgressState = Probe | Replicate | SnapshotSent

  /** The progress of a peer as a value. */
  datatype Peer = Peer(matched: nat, next: nat, state: ProgressState, paused: bool, pendingSnapshot: nat, ins: Fifo)

  function ResetState(p: Peer, state: ProgressState): Peer {
    p.(state := state, paused := false, pendingSnapshot := 0, ins := Emptied(p.ins))
  }

  /** After a snapshot the peer is probed from behind it. */
  function BecomeProbe(p: Peer): Peer {
    ResetState(p, Probe).(next := if p.state == SnapshotSent then Max(p.matched + 1, p.pendingSnapshot + 1) else p.matched + 1)
  }

  function BecomeReplicate(p: Peer): Peer {
    ResetState(p, Replicate).(next := p.matched + 1)
  }

  function BecomeSnapshot(p: Peer, index: nat): Peer {
    ResetState(p, SnapshotSent).(pendingSnapshot := index)
  }

  predicate IsPaused(p: Peer) {
    match p.state
    case Probe => p.paused
    case Replicate => IsFull(p.ins)
    case SnapshotSent => true
  }

  function MaybeUpdate(p: Peer, n: nat): Peer {
    var p1 := if p.matched < n then p.(matched := n, paused := false) else p;
    if p1.next < n + 1 then p1.(next := n + 1) else p1
  }

  /** A rejection of index `rejected` with a hint; none if it is stale. */
  function MaybeDecrTo(p: Peer, rejected: nat, hint: nat): Option<Peer> {
    if p.state == Replicate then
      if rejected <= p.matched then None else Some(p.(next := p.matched + 1))
    else if p.next == 0 || p.next - 1 != rejected then None
    else Some(p.(next := Max(1, Min(rejected, hint + 1)), paused := false))
  }

  /** After entries up to `last` were sent; none where it panics. */
  function UpdateState(p: Peer, last: nat): Option<Peer> {
    match p.state
    case Replicate => if IsFull(p.ins) then None else Some(p.(next := last + 1, ins := p.ins.(items := p.ins.items + [last])))
    case Probe => Some(p.(paused := true))
    case SnapshotSent => None
  }

  // ----- what holds of a peer

  /** A peer's next index is at most one past what the leader has or the peer acknowledged; the window is in order. */
  ghost predicate PeerOk(p: Peer, last: nat) {
    && 1 <= p.next <= Max(last, p.matched) + 1
    && FifoOk(p.ins) && Sorted(p.ins.items)
    && p.pendingSnapshot <= last
    && (p.state == Replicate ==> forall k :: 0 <= k < |p.ins.items| ==> p.ins.items[k] < p.next)
  }

  lemma PeerStepsOk(p: Peer, last: nat, i: nat, hint: nat)
    requires PeerOk(p, last)
    ensures PeerOk(BecomeProbe(p), last) && PeerOk(BecomeReplicate(p), last)
    ensures i <= last ==> PeerOk(BecomeSnapshot(p, i), last)
    ensures PeerOk(MaybeUpdate(p, i), last)
    ensures p.state != Replicate && MaybeDecrTo(p, i, hint).Some? ==> PeerOk(MaybeDecrTo(p, i, hint).value, last)
    ensures p.state == Replicate && MaybeDecrTo(p, i, hint).Some? ==> PeerOk(BecomeProbe(MaybeDecrTo(p, i, hint).value), last)
  {
  }

  /** An acknowledgement of a replicating peer frees exactly the window's values up to it. */
  lemma FreeToOk(p: Peer, last: nat, i: nat)
    requires PeerOk(p, last) && p.state == Replicate
    ensures var p' := MaybeUpdate(p, i).(ins := Freed(p.ins, i));
            PeerOk(p', last) && forall v: nat :: v in p'.ins.items <==> v in p.ins.items && v > i
  {
    var q := Freed(p.ins, i);
    ApplyKeepsOk(p.ins, OpFree(i));
    forall v: nat ensures v in q.items <==> v in p.ins.items && v > i {
      FreedKeepsGreater(p.ins, i, v);
    }
  }

  /** An accepted append up to `i`. If it brings something new, a probed peer starts to replicate, one
      that was sent a snapshot is probed once it has caught up, a replicating one frees its window. */
  function Accepted(p: Peer, i: nat): Peer {
    var p1 := MaybeUpdate(p, i);
    if p.matched >= i then p1
    else
      match p1.state
      case Probe => BecomeReplicate(p1)
      case SnapshotSent => if p1.matched >= p1.pendingSnapshot then BecomeProbe(p1) else p1
      case Replicate => p1.(ins := Freed(p1.ins, i))
  }

  /** A current rejection of a replicating peer makes the leader probe it again. */
  function Refused(p: Peer, rejected: nat, hint: nat): Peer {
    match MaybeDecrTo(p, rejected, hint)
    case None => p
    case Some(p1) => if p1.state == Replicate then BecomeProbe(p1) else p1
  }

  /** An answer to a heartbeat: sending to the peer may go on. */
  function HeartbeatAnswered(p: Peer): Peer {
    var p1 := p.(paused := false);
    if p1.state == Replicate && IsFull(p1.ins) && p1.ins.items != [] then p1.(ins := Freed(p1.ins, p1.ins.items[0])) else p1
  }

  /** What the peer acknowledged only grows, and what is still in flight lies behind it. */
  lemma AcceptedOk(p: Peer, last: nat, i: nat)
    requires PeerOk(p, last)
    requires p.state == Replicate ==> forall v :: v in p.ins.items ==> v > p.matched
    ensures var p' := Accepted(p, i);
            && PeerOk(p', last) && p'.matched == Max(p.matched, i)
            && (p'.state == Replicate ==> forall v :: v in p'.ins.items ==> v > p'.matched)
  {
    hide PeerOk, FifoOk, Sorted;
    PeerStepsOk(p, last, i, 0);
    PeerStepsOk(MaybeUpdate(p, i), last, i, 0);
    if p.state == Replicate {
      FreeToOk(p, last, i);
    }
    hide Freed;
  }

  /** A rejection leaves what was acknowledged alone. */
  lemma RefusedOk(p: Peer, last: nat, i: nat, hint: nat)
    requires PeerOk(p, last)
    ensures PeerOk(Refused(p, i, hint), last) && Refused(p, i, hint).matched == p.matched
  {
    hide PeerOk;
    PeerStepsOk(p, last, i, hint);
  }

  /** A heartbeat answer frees one slot of a full window, so sending goes on. */
  lemma FreeFirstOk(p: Peer, last: nat)
    requires PeerOk(p, last) && p.state == Replicate && p.ins.items != []
    ensures var q := Freed(p.ins, p.ins.items[0]);
            && PeerOk(p.(ins := q), last) && |q.items| < |p.ins.items|
            && (p.ins.pending.None? ==> !IsFull(q))
  {
    ApplyKeepsOk(p.ins, OpFree(p.ins.items[0]));
  }

  // ----- sending

  /** What is sent to a peer: entries behind an anchor, or a snapshot. */
  datatype Sent = Nothing | Entries(index: nat, term: nat, ents: seq<Entry>) | SnapshotOf(index: nat)

  /** The leader's log and settings; `snap` is the snapshot it could send now, if any. */
  datatype Source = Source(log: Log, maxSize: Option<nat>, w: Weigh, snap: Option<nat>)

  /** The entries from `next` on that fit one message; none if they are compacted. */
  function EntriesFrom(src: Source, next: nat): Option<seq<Entry>> {
    if next > Last(src.log) then Some([])
    else if next <= src.log.base then None
    else Some(LimitSize(Range(src.log, next, Last(src.log) + 1), src.maxSize, src.w))
  }

  datatype SendResult = Went(peer: Peer, sent: Sent) | Panicked

  function SendSnapshot(src: Source, p: Peer): SendResult {
    match src.snap
    case None => Went(p, Nothing)
    case Some(i) => Went(BecomeSnapshot(p, i), SnapshotOf(i))
  }

  /** `maybe_send_append`: without `allowEmpty` only entries are worth a message. */
  function MaybeSendAppend(src: Source, p: Peer, allowEmpty: bool): SendResult {
    if IsPaused(p) then Went(p, Nothing)
    else
      match EntriesFrom(src, p.next)
      case None => if allowEmpty then SendSnapshot(src, p) else Went(p, Nothing)
      case Some(ents) =>
        if !allowEmpty && ents == [] then Went(p, Nothing)
        else if p.next == 0 then Panicked
        else
          var msg := Entries(p.next - 1, TermOf(src.log, p.next - 1), ents);
          if ents == [] then Went(p, msg)
          else
            match UpdateState(p, ents[|ents| - 1].index)
            case None => Panicked
            case Some(p') => Went(p', msg)
  }

  predicate SourceOk(src: Source) {
    Indexed(src.log.entries, src.log.base) && (src.snap.Some? ==> src.snap.value <= Last(src.log))
  }

  lemma EntriesFromRange(src: Source, next: nat)
    requires SourceOk(src) && EntriesFrom(src, next).Some?
    ensures var ents := EntriesFrom(src, next).value;
            && (ents == [] <==> next > Last(src.log))
            && (ents != [] ==>
                  && src.log.base < next && next + |ents| <= Last(src.log) + 1
                  && ents == Range(src.log, next, next + |ents|)
                  && ents[|ents| - 1].index == next + |ents| - 1)
  {
  }

  /** A message that goes out is anchored right before the peer's next index, carries the log's term
      there and a piece of the log, and never overfills the window. */
  lemma SendKeepsOk(src: Source, p: Peer, allowEmpty: bool)
    requires SourceOk(src) && PeerOk(p, Last(src.log))
    ensures MaybeSendAppend(src, p, allowEmpty).Went?
    ensures var r := MaybeSendAppend(src, p, allowEmpty);
            && PeerOk(r.peer, Last(src.log))
            && (r.sent.Entries? ==>
                  && r.sent.index == p.next - 1 && r.sent.term == TermOf(src.log, p.next - 1)
                  && (p.next <= Last(src.log) ==>
                        && src.log.base < p.next && r.sent.ents != [] && p.next + |r.sent.ents| <= Last(src.log) + 1
                        && r.sent.ents == Range(src.log, p.next, p.next + |r.sent.ents|))
                  && (p.next > Last(src.log) ==> r.sent.ents == [] && allowEmpty)
                  && r.peer.matched == p.matched
                  && (r.sent.ents != [] && p.state == Replicate ==> r.peer.next == p.next + |r.sent.ents|))
            && (r.sent.SnapshotOf? ==> allowEmpty && p.next <= src.log.base)
            && (r.sent == Nothing ==> r.peer == p)
  {
    if EntriesFrom(src, p.next).Some? {
      EntriesFromRange(src, p.next);
    }
    hide EntriesFrom, LimitSize, Range;
  }

  /** How much more can be sent without an answer. */
  function Room(src: Source, p: Peer): nat {
    (if p.next <= Last(src.log) then Last(src.log) + 1 - p.next else 0) + if p.state == Probe && !p.paused then 1 else 0
  }

  lemma SendLessRoom(src: Source, p: Peer)
    requires SourceOk(src) && PeerOk(p, Last(src.log)) && MaybeSendAppend(src, p, false).sent != Nothing
    ensures Room(src, MaybeSendAppend(src, p, false).peer) < Room(src, p)
    ensures MaybeSendAppend(src, p, false).sent.Entries? && MaybeSendAppend(src, p, false).sent.ents != []
  {
    SendKeepsOk(src, p, false);
    if EntriesFrom(src, p.next).Some? {
      EntriesFromRange(src, p.next);
    }
    hide EntriesFrom, LimitSize, Range;
  }
}
