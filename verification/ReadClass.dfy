/** The pending reads as the queue and the map that a leader updates in place
    (raft-rs/src/read_only.rs). */
module ReadClass {
  import opened Types
  import opened ReadQueue

  /** The statuses of the contexts, in order. */
  function Statuses(pending: map<Ctx, ReadStatus>, ctxs: seq<Ctx>): (r: seq<ReadStatus>)
    requires forall c :: c in ctxs ==> c in pending
    ensures |r| == |ctxs| && forall i :: 0 <= i < |ctxs| ==> r[i] == pending[ctxs[i]]
  {
    seq(|ctxs|, i requires 0 <= i < |ctxs| => assert ctxs[i] in ctxs; pending[ctxs[i]])
  }

  /** The map without the given contexts. */
  function Without(pending: map<Ctx, ReadStatus>, ctxs: seq<Ctx>): map<Ctx, ReadStatus> {
    map c | c in pending && c !in ctxs :: pending[c]
  }

  lemma WithoutNext(pending: map<Ctx, ReadStatus>, q: seq<Ctx>, k: nat)
    requires k < |q|
    ensures Without(pending, q[..k]) - {q[k]} == Without(pending, q[..k + 1])
  {
    assert q[..k + 1] == q[..k] + [q[k]];
  }

  lemma InPending(r: Reads, n: nat)
    requires ReadsOk(r) && n <= |r.queue|
    ensures forall c :: c in r.queue[..n] ==> c in r.pending
  {
  }

  lemma NoRepeats(r: Reads)
    requires ReadsOk(r)
    ensures forall i, j :: 0 <= i < j < |r.queue| ==> r.queue[i] != r.queue[j]
  {
  }

  lemma AdvanceIs(r: Reads, ctx: Ctx)
    ensures var i := Position(r.queue, ctx);
            if i == |r.queue| then Released(r, ctx) == [] && ReadQueue.Advance(r, ctx) == r
            else
              && Released(r, ctx) == r.queue[..i + 1]
              && ReadQueue.Advance(r, ctx) == Reads(Without(r.pending, r.queue[..i + 1]), r.queue[i + 1..])
  {
    assert r.queue[0..] == r.queue;
    if Position(r.queue, ctx) == |r.queue| {
      assert (map c | c in r.pending && c !in [] :: r.pending[c]) == r.pending;
    }
  }

  class ReadOnly {
    var pending: map<Ctx, ReadStatus>
    var queue: seq<Ctx>

    ghost function State(): Reads
      reads this
    {
      Reads(pending, queue)
    }

    /** Queue and map hold the same contexts, so no lookup of `Advance` can fail. */
    ghost predicate Valid()
      reads this
    {
      ReadsOk(State())
    }

    constructor ()
      ensures Valid() && State() == NoReads
    {
      pending, queue := map[], [];
    }

    method AddRequest(index: nat, from: Id, ctx: Ctx, self: Id)
      requires Valid()
      modifies this
      ensures Valid() && State() == ReadQueue.AddRequest(old(State()), index, from, ctx, self)
    {
      if ctx in pending {
        return;
      }
      pending := pending[ctx := ReadStatus(from, index, {self})];
      queue := queue + [ctx];
    }

    method RecvAck(id: Id, ctx: Ctx) returns (acks: Option<set<Id>>)
      requires Valid()
      modifies this
      ensures Valid() && State() == ReadQueue.RecvAck(old(State()), id, ctx)
      ensures acks == if ctx in old(pending) then Some(old(pending)[ctx].acks + {id}) else None
    {
      if ctx !in pending {
        return None;
      }
      var st := pending[ctx];
      pending := pending[ctx := st.(acks := st.acks + {id})];
      acks := Some(st.acks + {id});
    }

    /** Where `ctx` stands in the queue, or the queue's length. */
    method Find(ctx: Ctx) returns (i: nat)
      requires Valid()
      ensures i == Position(queue, ctx)
    {
      i := 0;
      assert queue[0..] == queue;
      while i < |queue| && queue[i] != ctx
        invariant 0 <= i <= |queue|
        invariant Position(queue, ctx) == i + Position(queue[i..], ctx)
      {
        assert queue[i..][1..] == queue[i + 1..];
        i := i + 1;
      }
    }

    /** Dequeues every request up to the one with context `ctx`, first in, first out. */
    method Advance(ctx: Ctx) returns (released: seq<ReadStatus>)
      requires Valid()
      modifies this
      ensures Valid() && State() == ReadQueue.Advance(old(State()), ctx)
      ensures (forall c :: c in Released(old(State()), ctx) ==> c in old(pending))
           && released == Statuses(old(pending), Released(old(State()), ctx))
    {
      hide ReadsOk, Position, Without;
      AdvanceKeepsOk(State(), ctx);
      AdvanceIs(State(), ctx);
      NoRepeats(State());
      var i := Find(ctx);
      hide Released, ReadQueue.Advance;
      if i == |queue| {
        return [];
      }
      InPending(State(), i + 1);
      released := PopFront(i + 1);
    }

    /** Pops the first `n` requests. */
    method PopFront(n: nat) returns (released: seq<ReadStatus>)
      requires n <= |queue| && (forall c :: c in queue[..n] ==> c in pending)
      requires forall i, j :: 0 <= i < j < |queue| ==> queue[i] != queue[j]
      modifies this
      ensures queue == old(queue)[n..] && pending == Without(old(pending), old(queue)[..n])
      ensures released == Statuses(old(pending), old(queue)[..n])
    {
      ghost var q, pend := queue, pending;
      released := [];
      assert pending == Without(pend, q[..0]);
      for popped := 0 to n
        invariant queue == q[popped..]
        invariant pending == Without(pend, q[..popped])
        invariant |released| == popped && forall k :: 0 <= k < popped ==> released[k] == pend[q[..n][k]]
      {
        assert queue[0] == q[popped] == q[..n][popped];
        assert q[popped] !in q[..popped];
        WithoutNext(pend, q, popped);
        released := released + [pending[queue[0]]];
        pending := pending - {queue[0]};
        queue := queue[1..];
      }
    }

    method LastPendingCtx() returns (ctx: Option<Ctx>)
      ensures ctx == if queue == [] then None else Some(queue[|queue| - 1])
    {
      ctx := if queue == [] then None else Some(queue[|queue| - 1]);
    }
  }
}
