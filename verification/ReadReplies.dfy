/** Every read that is forwarded, queued and confirmed is answered, once and to the node that asked
    (raft-rs/src/raft.rs, raft-rs/src/read_only.rs). */
module ReadReplies {
  import opened Types
  import opened Quorum
  import opened ReadQueue
  import opened RaftNode

  // ----- at a follower

  /** A follower passes a read on to its leader, in the name of the node that asked first; without a leader it
      is dropped. */
  lemma ReadForwarded(g: Group, n: Node, m: Msg, mci: nat)
    requires m.ReadIndex? && n.role == Follower
    ensures Step(g, n, m, mci) ==
            Ok(n, if n.leaderId == NONE then {} else {ReadIndex(if m.from == NONE then n.id else m.from, n.leaderId, m.ctx)})
  {
  }

  /** An answer is handed to the client, once, and its index committed if the log holds it with that term. */
  lemma AnswerHandedOver(g: Group, n: Node, m: Msg, mci: nat)
    requires m.ReadIndexResp? && n.role == Follower && m.term == n.term > 0
    ensures Step(g, n, m, mci).Ok? && Step(g, n, m, mci).out == {}
    ensures var n' := Step(g, n, m, mci).node;
            && n'.readStates == n.readStates + [ReadState(m.index, m.ctx)]
            && n'.committed == (if n.committed < m.index <= |n.log| && n.log[m.index - 1].term == m.term then m.index else n.committed)
            && n'.log == n.log && n'.term == n.term && n'.role == Follower && n'.leaderId == n.leaderId
  {
  }

  // ----- at the leader

  /** The state of a read that was just queued: who asked, the commit index of that moment, and the leader's own
      acknowledgement. */
  function Fresh(n: Node, m: Msg): ReadStatus
    requires m.ReadIndex?
  {
    ReadStatus(m.from, n.committed, {n.id})
  }

  /** A leader that has committed nothing in its term drops a read. Otherwise a single voter answers it at once
      with its commit index, and any other leader queues it behind the others, unless its context is
      pending. */
  lemma ReadQueued(g: Group, n: Node, m: Msg, mci: nat)
    requires m.ReadIndex? && n.role == Leader && n.term > 0
    ensures Step(g, n, m, mci).Ok?
    ensures var r := Step(g, n, m, mci);
            if n.committed == 0 || n.committed > |n.log| || n.log[n.committed - 1].term != n.term
            then r == Ok(n, {})
            else if |g.cfg.incoming| == 1 && g.cfg.outgoing == {}
            then Replied(n, [m.ctx], map[m.ctx := Fresh(n, m)], r) && r.node.waiting == n.waiting
            else
              && r.out == {} && r.node == n.(waiting := r.node.waiting)
              && r.node.waiting ==
                 if m.ctx in n.waiting.pending then n.waiting
                 else Reads(n.waiting.pending[m.ctx := Fresh(n, m)], n.waiting.queue + [m.ctx])
  {
    if CommittedInTerm(n) && IsSingleton(g.cfg) {
      var p := map[m.ctx := Fresh(n, m)];
      OneResponse(n, m.ctx, p);
      AllReplied(n, [m.ctx], p);
      hide RespondAll, Respond, Replied;
    }
  }

  lemma OneResponse(n: Node, c: Ctx, pending: map<Ctx, ReadStatus>)
    requires c in pending
    ensures RespondAll(n, [c], pending) == Respond(n, pending[c].from, c, pending[c].index)
    ensures RespondAll(n, [c], pending).0.waiting == n.waiting
  {
    var r := Respond(n, pending[c].from, c, pending[c].index);
    assert RespondAll(r.0, [c][1..], pending) == (r.0, {});
    assert r.1 + {} == r.1;
  }

  /** Whether the answer stays at the node itself. */
  predicate IsLocal(n: Node, c: Ctx, pending: map<Ctx, ReadStatus>)
    requires c in pending
  {
    pending[c].from == NONE || pending[c].from == n.id
  }

  /** The read states of the reads that were asked at the node itself, in order. */
  function LocalStates(n: Node, cs: seq<Ctx>, pending: map<Ctx, ReadStatus>): seq<ReadState>
    requires forall c :: c in cs ==> c in pending
  {
    if cs == [] then []
    else
      (if IsLocal(n, cs[0], pending) then [ReadState(pending[cs[0]].index, cs[0])] else []) + LocalStates(n, cs[1..], pending)
  }

  /** Each of the reads is answered with its own index: those asked at the node itself by a read state, in order,
      the others by a message to the node that asked, and nothing else is sent or changed. */
  ghost predicate Replied(n: Node, cs: seq<Ctx>, pending: map<Ctx, ReadStatus>, r: Outcome)
    requires forall c :: c in cs ==> c in pending
  {
    && r.Ok?
    && r.node.readStates == n.readStates + LocalStates(n, cs, pending)
    && r.node == n.(readStates := r.node.readStates, waiting := r.node.waiting)
    && (forall c :: c in cs && !IsLocal(n, c, pending) ==>
          ReadIndexResp(n.id, pending[c].from, n.term, pending[c].index, c) in r.out)
    && (forall o :: o in r.out ==>
          o.ReadIndexResp? && o.ctx in cs && !IsLocal(n, o.ctx, pending)
          && o == ReadIndexResp(n.id, pending[o.ctx].from, n.term, pending[o.ctx].index, o.ctx))
  }

  lemma {:induction false} AllReplied(n: Node, cs: seq<Ctx>, pending: map<Ctx, ReadStatus>)
    requires forall c :: c in cs ==> c in pending
    ensures Replied(n, cs, pending, Ok(RespondAll(n, cs, pending).0, RespondAll(n, cs, pending).1))
    decreases |cs|
  {
    if cs != [] {
      var st := pending[cs[0]];
      var x := Respond(n, st.from, cs[0], st.index).0;
      AllReplied(x, cs[1..], pending);
      SameLocals(n, x, cs[1..], pending);
      assert cs == [cs[0]] + cs[1..];
    }
  }

  lemma {:induction false} SameLocals(n: Node, x: Node, cs: seq<Ctx>, pending: map<Ctx, ReadStatus>)
    requires (forall c :: c in cs ==> c in pending) && x.id == n.id
    ensures LocalStates(n, cs, pending) == LocalStates(x, cs, pending)
    decreases |cs|
  {
    if cs != [] {
      SameLocals(n, x, cs[1..], pending);
    }
  }

  /** A read asked at the node itself is answered exactly once. */
  lemma {:induction false} AnsweredOnce(n: Node, cs: seq<Ctx>, pending: map<Ctx, ReadStatus>, c: Ctx)
    requires (forall d :: d in cs ==> d in pending) && c in pending
    requires forall i, j :: 0 <= i < j < |cs| ==> cs[i] != cs[j]
    ensures multiset(LocalStates(n, cs, pending))[ReadState(pending[c].index, c)] ==
            if c in cs && IsLocal(n, c, pending) then 1 else 0
    decreases |cs|
  {
    if cs != [] {
      AnsweredOnce(n, cs[1..], pending, c);
      assert cs == [cs[0]] + cs[1..];
      assert cs[0] !in cs[1..];
    }
  }

  /** The pending reads once `from` has confirmed the context `ctx`. */
  function Confirmed(w: Reads, from: Id, ctx: Ctx): map<Ctx, ReadStatus>
    requires ctx in w.pending
  {
    w.pending[ctx := w.pending[ctx].(acks := w.pending[ctx].acks + {from})]
  }

  /** A confirmation is noted. Once a quorum has confirmed the read, it and everything queued before it is
      answered and leaves the queue, in order; everything behind stays. */
  lemma ConfirmationAnswered(g: Group, n: Node, m: Msg, mci: nat) returns (k: nat)
    requires n.role == Leader && m.HeartbeatResp? && m.term == n.term > 0 && m.from in n.matched && m.ctx != []
    requires ReadsOk(n.waiting) && m.ctx in n.waiting.pending
    ensures k < |n.waiting.queue| && n.waiting.queue[k] == m.ctx
    ensures Step(g, n, m, mci).Ok?
    ensures var r := Step(g, n, m, mci);
            var w, p := n.waiting, Confirmed(n.waiting, m.from, m.ctx);
            var cs := w.queue[..k + 1];
            if IsQuorum(g.cfg, p[m.ctx].acks) then
              && (forall c :: c in cs ==> c in p)
              && Replied(n, cs, p, r)
              && r.node.waiting.queue == w.queue[k + 1..]
              && r.node.waiting.pending == map c | c in p && c !in cs :: p[c]
            else r == Ok(n.(waiting := Reads(p, w.queue)), {})
  {
    k := Position(n.waiting.queue, m.ctx);
    var w := RecvAck(n.waiting, m.from, m.ctx);
    ConfirmedReads(n.waiting, m.from, m.ctx, k);
    hide *;
    AcksAreQuorum(g.cfg, w.pending[m.ctx].acks);
    StepConfirms(g, n, m, mci, w);
    RepliedBehind(n, Advance(w, m.ctx), Released(w, m.ctx), w.pending);
  }

  lemma ConfirmedReads(r: Reads, from: Id, ctx: Ctx, k: nat)
    requires ReadsOk(r) && ctx in r.pending && k == Position(r.queue, ctx)
    ensures k < |r.queue| && r.queue[k] == ctx
    ensures var w := RecvAck(r, from, ctx);
            && w == Reads(Confirmed(r, from, ctx), r.queue) && ctx in w.pending
            && CanAdvance(w, ctx)
            && Released(w, ctx) == r.queue[..k + 1]
            && (forall c :: c in Released(w, ctx) ==> c in w.pending)
            && Advance(w, ctx).queue == r.queue[k + 1..]
            && Advance(w, ctx).pending == map c | c in w.pending && c !in r.queue[..k + 1] :: w.pending[c]
  {
    OkCanAdvance(RecvAck(r, from, ctx), ctx);
  }

  lemma RepliedBehind(n: Node, w: Reads, cs: seq<Ctx>, pending: map<Ctx, ReadStatus>)
    requires forall c :: c in cs ==> c in pending
    ensures var r := RespondAll(n.(waiting := w), cs, pending);
            Replied(n, cs, pending, Ok(r.0, r.1)) && r.0.waiting == w
  {
    AllReplied(n.(waiting := w), cs, pending);
    SameLocals(n, n.(waiting := w), cs, pending);
    AnswersKeepReads(n.(waiting := w), cs, pending);
    hide RespondAll, LocalStates;
  }

  lemma {:induction false} AnswersKeepReads(n: Node, cs: seq<Ctx>, pending: map<Ctx, ReadStatus>)
    requires forall c :: c in cs ==> c in pending
    ensures RespondAll(n, cs, pending).0.waiting == n.waiting
    decreases |cs|
  {
    if cs != [] {
      AnswersKeepReads(Respond(n, pending[cs[0]].from, cs[0], pending[cs[0]].index).0, cs[1..], pending);
    }
  }

  lemma StepConfirms(g: Group, n: Node, m: Msg, mci: nat, w: Reads)
    requires n.role == Leader && m.HeartbeatResp? && m.term == n.term > 0 && m.from in n.matched && m.ctx != []
    requires w == RecvAck(n.waiting, m.from, m.ctx) && m.ctx in w.pending && CanAdvance(w, m.ctx)
    ensures forall c :: c in Released(w, m.ctx) ==> c in w.pending
    ensures Step(g, n, m, mci) ==
            if JointVote(g.cfg, YesFrom(w.pending[m.ctx].acks)) != Won then Ok(n.(waiting := w), {})
            else
              var r := RespondAll(n.(waiting := Advance(w, m.ctx)), Released(w, m.ctx), w.pending);
              Ok(r.0, r.1)
  {
    ReleasedPending(w, m.ctx);
    hide JointVote, Released, Advance, CanAdvance, RespondAll, RecvAck;
  }
}
