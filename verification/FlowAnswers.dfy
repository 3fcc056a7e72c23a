/** What an answer makes of a peer's progress, and when something is sent to it
    (raft-rs/src/raft.rs, raft-rs/src/tracker/progress.rs, raft-rs/src/tracker/inflights.rs). */
module FlowAnswers {
  import opened Types
  import opened LogModel
  import opened Inflights
  import opened Flow

  /** Nothing is in flight and no snapshot is awaited: the next message goes out at once, unless the window has
      no room at all. */
  predicate StartsAfresh(p: Peer, next: nat) {
    p.next == next && !p.paused && p.pendingSnapshot == 0 && p.ins.items == [] && p.ins.pending.None?
  }

  /** An acknowledgement that brings something new makes a probed peer replicate and a peer that has caught up
      with its snapshot be probed, both from behind it; a replicating one keeps in flight exactly what was sent
      past it, in order. One that brings nothing new changes at most the next index. */
  lemma AcceptedExactly(p: Peer, last: nat, i: nat) returns (k: nat)
    requires PeerOk(p, last)
    ensures var q := Accepted(p, i);
            if i <= p.matched then q == p.(next := Max(p.next, i + 1))
            else
              && q.matched == i
              && match p.state
                 case Probe => q.state == Replicate && StartsAfresh(q, i + 1)
                 case SnapshotSent =>
                   if p.pendingSnapshot <= i then q.state == Probe && StartsAfresh(q, i + 1)
                   else q.state == SnapshotSent && q.pendingSnapshot == p.pendingSnapshot && q.next == Max(p.next, i + 1)
                 case Replicate =>
                   && q.state == Replicate && !q.paused && q.next == Max(p.next, i + 1)
                   && k <= |p.ins.items| && q.ins.items == p.ins.items[k..]
                   && (forall j :: 0 <= j < k ==> p.ins.items[j] <= i)
                   && (forall j :: k <= j < |p.ins.items| ==> p.ins.items[j] > i)
  {
    k := Prefix(p.ins.items, i, 0);
  }

  /** A probed peer that answers, and one that has caught up with its snapshot, is not paused afterwards, unless
      its window has no room at all; neither is a replicating one whose answer frees a slot. */
  lemma AcceptedResumes(p: Peer, last: nat, i: nat)
    requires PeerOk(p, last) && i > p.matched
    ensures p.state == SnapshotSent && p.pendingSnapshot <= i ==> !IsPaused(Accepted(p, i))
    ensures p.state == Probe && Emptied(p.ins).cap > 0 ==> !IsPaused(Accepted(p, i))
    ensures p.state == Replicate && p.ins.pending.None? && p.ins.items != [] && p.ins.items[0] <= i ==> !IsPaused(Accepted(p, i))
  {
    var k := AcceptedExactly(p, last, i);
  }

  /** A rejection is stale if a replicating peer has acknowledged the rejected index, or if it is not for the
      last index probed. A current one makes a replicating peer be probed from behind what it acknowledged,
      and moves any other peer's next index behind the hint, but before the rejected index and not below one. */
  lemma RefusedExactly(p: Peer, rejected: nat, hint: nat)
    ensures var q := Refused(p, rejected, hint);
            match p.state
            case Replicate =>
              if rejected <= p.matched then q == p
              else q.state == Probe && StartsAfresh(q, p.matched + 1) && q.matched == p.matched
            case _ =>
              if p.next != rejected + 1 then q == p
              else
                && q == p.(next := q.next, paused := false)
                && q.next == if rejected == 0 then 1 else if hint + 1 < rejected then hint + 1 else rejected
  {
  }

  /** An answer to a heartbeat resumes a probed peer, and frees the oldest slot of a full window. */
  lemma HeartbeatAnswerResumes(p: Peer, last: nat)
    requires PeerOk(p, last)
    ensures var q := HeartbeatAnswered(p);
            && PeerOk(q, last) && q == p.(paused := false, ins := q.ins)
            && (p.state == Probe ==> !IsPaused(q) && q.ins == p.ins)
            && (p.state == Replicate && !IsFull(p.ins) ==> q.ins == p.ins)
            && (p.state == Replicate && IsFull(p.ins) && p.ins.items != [] ==>
                  |q.ins.items| < |p.ins.items| && q.ins.items == p.ins.items[|p.ins.items| - |q.ins.items|..])
            && (p.state == Replicate && p.ins.items != [] && p.ins.pending.None? ==> !IsPaused(q))
  {
    if p.state == Replicate && p.ins.items != [] {
      FreeFirstOk(p, last);
    }
  }

  /** Which message is due to a peer that is not paused: the entries from its next index on, as many as one
      message takes, anchored right before it; an empty message or a snapshot only where one is wanted. */
  predicate Due(src: Source, p: Peer, allowEmpty: bool, sent: Sent)
    requires SourceOk(src) && p.next >= 1
  {
    if p.next > Last(src.log) then
      sent == if allowEmpty then Entries(p.next - 1, TermOf(src.log, p.next - 1), []) else Nothing
    else if p.next <= src.log.base then
      sent == if allowEmpty && src.snap.Some? then SnapshotOf(src.snap.value) else Nothing
    else
      && sent.Entries? && sent.index == p.next - 1 && sent.term == TermOf(src.log, p.next - 1)
      && sent.ents == LimitSize(Range(src.log, p.next, Last(src.log) + 1), src.maxSize, src.w) && sent.ents != []
  }

  /** A paused peer is sent nothing; any other gets the message that is due. Afterwards a replicating peer is
      sent what follows, with the last entry in flight, a probed one is paused, and one that was sent a
      snapshot waits for it. */
  lemma SendsWhatIsDue(src: Source, p: Peer, allowEmpty: bool)
    requires SourceOk(src) && PeerOk(p, Last(src.log))
    ensures MaybeSendAppend(src, p, allowEmpty).Went?
    ensures var r := MaybeSendAppend(src, p, allowEmpty);
            if IsPaused(p) then r.sent == Nothing && r.peer == p
            else
              && Due(src, p, allowEmpty, r.sent)
              && match r.sent
                 case Nothing => r.peer == p
                 case SnapshotOf(i) => r.peer.state == SnapshotSent && r.peer.pendingSnapshot == i && r.peer.next == p.next
                 case Entries(index, _, ents) =>
                   r.peer ==
                   if ents == [] then p
                   else if p.state == Probe then p.(paused := true)
                   else p.(next := p.next + |ents|, ins := p.ins.(items := p.ins.items + [index + |ents|]))
  {
    if EntriesFrom(src, p.next).Some? {
      EntriesFromRange(src, p.next);
    }
    hide LimitSize, Range;
  }

  /** Which peers are paused: a probed one that was sent a message, a replicating one whose window is full, and
      one that waits for a snapshot. */
  lemma PausedExactly(p: Peer)
    requires FifoOk(p.ins)
    ensures IsPaused(p) <==>
            || (p.state == Probe && p.paused)
            || (p.state == Replicate && |p.ins.items| >= (if p.ins.pending.Some? then p.ins.pending.value else p.ins.cap))
            || p.state == SnapshotSent
  {
  }

  /** After a change of its capacity a window holds what it held, is full exactly from the new capacity on, and
      has the new capacity once it is emptied. */
  lemma ResizedExactly(q: Fifo, cap: nat)
    requires FifoOk(q)
    ensures var r := Resized(q, cap);
            && r.items == q.items && FifoOk(r)
            && (IsFull(r) <==> |q.items| >= cap)
            && Emptied(r) == Fifo([], cap, None)
  {
  }
}
