/** A peer's progress as the object that a leader updates in place, and the sending loop. */
module FlowClasses {
  import opened Types
  import opened LogModel
  import opened LogClasses
  import opened Inflights
  import opened Flow

  class Progress {
    var matched: nat
    var next: nat
    var state: ProgressState
    var paused: bool
    var pendingSnapshot: nat
    const ins: Ring

    ghost predicate Valid()
      reads this, ins
    {
      ins.Valid()
    }

    ghost function State(): Peer
      requires Valid()
      reads this, ins
    {
      Peer(matched, next, state, paused, pendingSnapshot, ins.Abs())
    }

    constructor (next: nat, window: nat)
      ensures Valid() && fresh(ins) && State() == Peer(0, next, ProgressState.Probe, false, 0, Fifo([], window, None))
    {
      matched, this.next, state, paused, pendingSnapshot := 0, next, ProgressState.Probe, false, 0;
      ins := new Ring(window);
    }

    method ResetState(s: ProgressState)
      requires Valid()
      modifies this, ins
      ensures Valid() && State() == Flow.ResetState(old(State()), s)
    {
      paused, pendingSnapshot, state := false, 0, s;
      ins.Reset();
    }

    method BecomeProbe()
      requires Valid()
      modifies this, ins
      ensures Valid() && State() == Flow.BecomeProbe(old(State()))
    {
      if state == SnapshotSent {
        var pending := pendingSnapshot;
        ResetState(ProgressState.Probe);
        next := Max(matched + 1, pending + 1);
      } else {
        ResetState(ProgressState.Probe);
        next := matched + 1;
      }
    }

    method BecomeReplicate()
      requires Valid()
      modifies this, ins
      ensures Valid() && State() == Flow.BecomeReplicate(old(State()))
    {
      ResetState(Replicate);
      next := matched + 1;
    }

    method BecomeSnapshot(index: nat)
      requires Valid()
      modifies this, ins
      ensures Valid() && State() == Flow.BecomeSnapshot(old(State()), index)
    {
      ResetState(SnapshotSent);
      pendingSnapshot := index;
    }

    predicate IsPaused()
      requires Valid()
      reads this, ins
      ensures IsPaused() == Flow.IsPaused(State())
    {
      match state
      case Probe => paused
      case Replicate => ins.Full()
      case SnapshotSent => true
    }

    method MaybeUpdate(n: nat) returns (updated: bool)
      requires Valid()
      modifies this
      ensures Valid() && State() == Flow.MaybeUpdate(old(State()), n) && updated == (old(matched) < n)
    {
      updated := matched < n;
      if updated {
        matched, paused := n, false;
      }
      if next < n + 1 {
        next := n + 1;
      }
    }

    method MaybeDecrTo(rejected: nat, hint: nat) returns (current: bool)
      requires Valid()
      modifies this
      ensures Valid()
      ensures var r := Flow.MaybeDecrTo(old(State()), rejected, hint);
              current == r.Some? && State() == if r.Some? then r.value else old(State())
    {
      if state == Replicate {
        if rejected <= matched {
          return false;
        }
        next := matched + 1;
        return true;
      }
      if next == 0 || next - 1 != rejected {
        return false;
      }
      next := Min(rejected, hint + 1);
      if next < 1 {
        next := 1;
      }
      paused := false;
      current := true;
    }

    method UpdateState(last: nat)
      requires Valid() && Flow.UpdateState(State(), last).Some?
      modifies this, ins
      ensures Valid() && Flow.UpdateState(old(State()), last) == Some(State())
    {
      if state == Replicate {
        next := last + 1;
        ins.Add(last);
      } else {
        paused := true;
      }
    }
  }

  /** An accepted append up to `i`; says whether it brought anything new. */
  method HandleAccepted(p: Progress, i: nat) returns (updated: bool)
    requires p.Valid()
    modifies p, p.ins
    ensures p.Valid() && p.State() == Accepted(old(p.State()), i) && updated == (old(p.matched) < i)
  {
    updated := p.MaybeUpdate(i);
    if !updated {
      return;
    }
    match p.state {
      case Probe => p.BecomeReplicate();
      case SnapshotSent =>
        if p.matched >= p.pendingSnapshot {
          p.BecomeProbe();
        }
      case Replicate => p.ins.FreeTo(i);
    }
  }

  /** A rejected append; says whether the rejection was current. */
  method HandleRefused(p: Progress, rejected: nat, hint: nat) returns (current: bool)
    requires p.Valid()
    modifies p, p.ins
    ensures p.Valid() && p.State() == Refused(old(p.State()), rejected, hint)
    ensures current == Flow.MaybeDecrTo(old(p.State()), rejected, hint).Some?
  {
    current := p.MaybeDecrTo(rejected, hint);
    if current && p.state == Replicate {
      p.BecomeProbe();
    }
  }

  /** An answer to a heartbeat resumes the peer and frees one slot of a full window. */
  method HandleHeartbeatAnswer(p: Progress)
    requires p.Valid()
    modifies p, p.ins
    ensures p.Valid() && p.State() == HeartbeatAnswered(old(p.State()))
  {
    p.paused := false;
    if p.state == Replicate && p.ins.Full() {
      p.ins.FreeFirstOne();
    }
  }

  /** Sends at most one message; the precondition of the window is met because a full one pauses. */
  method MaybeSendAppend(src: Source, p: Progress, allowEmpty: bool) returns (sent: Sent)
    requires p.Valid() && SourceOk(src) && PeerOk(p.State(), Last(src.log))
    modifies p, p.ins
    ensures p.Valid() && Flow.MaybeSendAppend(src, old(p.State()), allowEmpty) == Went(p.State(), sent)
    ensures PeerOk(p.State(), Last(src.log))
  {
    SendKeepsOk(src, p.State(), allowEmpty);
    hide PeerOk, SourceOk, Flow.UpdateState, LimitSize, Range, Flow.IsPaused;
    if p.IsPaused() {
      return Nothing;
    }
    var ents := [];
    if p.next <= Last(src.log) {
      if p.next <= src.log.base {
        if !allowEmpty || src.snap.None? {
          return Nothing;
        }
        p.BecomeSnapshot(src.snap.value);
        return SnapshotOf(src.snap.value);
      }
      ents := Limit(Range(src.log, p.next, Last(src.log) + 1), src.maxSize, src.w);
    }
    if ents == [] {
      if !allowEmpty {
        return Nothing;
      }
      return Entries(p.next - 1, TermOf(src.log, p.next - 1), []);
    }
    sent := Entries(p.next - 1, TermOf(src.log, p.next - 1), ents);
    p.UpdateState(ents[|ents| - 1].index);
  }

  /** The entries of all the messages in order. */
  function AllEntries(msgs: seq<Sent>): seq<Entry> {
    if msgs == [] then []
    else
      var rest := AllEntries(msgs[..|msgs| - 1]);
      var m := msgs[|msgs| - 1];
      if m.Entries? then rest + m.ents else rest
  }

  /** Sends as much as the window allows; the messages carry the log's next entries without a gap, and
      afterwards nothing more can be sent without an answer. */
  method SendAppendAggressively(src: Source, p: Progress) returns (msgs: seq<Sent>)
    requires p.Valid() && SourceOk(src) && PeerOk(p.State(), Last(src.log))
    modifies p, p.ins
    ensures p.Valid() && PeerOk(p.State(), Last(src.log))
    ensures Flow.MaybeSendAppend(src, p.State(), false) == Went(p.State(), Nothing)
    ensures forall k :: 0 <= k < |msgs| ==> msgs[k].Entries? && msgs[k].ents != []
    ensures p.state == old(p.state) && p.matched == old(p.matched)
    ensures p.state == Replicate && msgs != [] ==>
              && src.log.base < old(p.next) < p.next <= Last(src.log) + 1
              && AllEntries(msgs) == Range(src.log, old(p.next), p.next)
  {
    hide PeerOk, SourceOk, Flow.MaybeSendAppend, Range, Room;
    msgs := [];
    while true
      invariant p.Valid() && PeerOk(p.State(), Last(src.log))
      invariant forall k :: 0 <= k < |msgs| ==> msgs[k].Entries? && msgs[k].ents != []
      invariant p.state == old(p.state) && p.matched == old(p.matched)
      invariant msgs == [] ==> p.next == old(p.next)
      invariant p.state == Replicate && msgs != [] ==>
                  && src.log.base < old(p.next) < p.next <= Last(src.log) + 1
                  && AllEntries(msgs) == Range(src.log, old(p.next), p.next)
      decreases Room(src, p.State())
    {
      var next := p.next;
      var sent := SendMore(src, p);
      if sent == Nothing {
        break;
      }
      AllEntriesMore(msgs, sent);
      msgs := msgs + [sent];
      if p.state == Replicate {
        RangeGrows(src.log, old(p.next), next, p.next);
      }
    }
  }

  /** One message with entries, if possible. */
  method SendMore(src: Source, p: Progress) returns (sent: Sent)
    requires p.Valid() && SourceOk(src) && PeerOk(p.State(), Last(src.log))
    modifies p, p.ins
    ensures p.Valid() && PeerOk(p.State(), Last(src.log)) && p.state == old(p.state) && p.matched == old(p.matched)
    ensures sent == Nothing ==> p.State() == old(p.State()) && Flow.MaybeSendAppend(src, p.State(), false) == Went(p.State(), Nothing)
    ensures sent != Nothing ==>
              && sent.Entries? && sent.ents != [] && Room(src, p.State()) < Room(src, old(p.State()))
              && (p.state == Replicate ==>
                    && src.log.base < old(p.next) < p.next <= Last(src.log) + 1
                    && sent.ents == Range(src.log, old(p.next), p.next))
  {
    ghost var was := p.State();
    SendKeepsOk(src, was, false);
    sent := MaybeSendAppend(src, p, false);
    SendKeepsState(src, was);
    if sent != Nothing {
      SendLessRoom(src, was);
    }
  }

  lemma AllEntriesMore(msgs: seq<Sent>, sent: Sent)
    requires sent.Entries?
    ensures AllEntries(msgs + [sent]) == AllEntries(msgs) + sent.ents
  {
    assert (msgs + [sent])[..|msgs|] == msgs;
  }

  lemma SendKeepsState(src: Source, p: Peer)
    requires MaybeSendAppendWent(src, p)
    ensures Flow.MaybeSendAppend(src, p, false).peer.state == p.state && Flow.MaybeSendAppend(src, p, false).peer.matched == p.matched
  {
  }

  ghost predicate MaybeSendAppendWent(src: Source, p: Peer) {
    Flow.MaybeSendAppend(src, p, false).Went?
  }

  lemma RangeGrows(g: Log, a: nat, b: nat, c: nat)
    requires g.base < a <= b <= c <= Last(g) + 1
    ensures Range(g, a, b) + Range(g, b, c) == Range(g, a, c)
  {
  }
}
