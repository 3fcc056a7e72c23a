/** Pending read-index requests as values (raft-rs/src/read_only.rs): a FIFO queue of request
    contexts and a map from each context to its state. */
module ReadQueue {
  import opened Types

  type Ctx = Bytes

  /** `from` is the node that asked, `index` the commit index when the request was queued. */
  datatype ReadStatus = ReadStatus(from: Id, index: nat, acks: set<Id>)

  datatype Reads = Reads(pending: map<Ctx, ReadStatus>, queue: seq<Ctx>)

  const NoReads: Reads := Reads(map[], [])

  /** The queue and the map hold the same contexts, each once. */
  ghost predicate ReadsOk(r: Reads) {
    && (forall i :: 0 <= i < |r.queue| ==> r.queue[i] in r.pending)
    && (forall c :: c in r.pending ==> c in r.queue)
    && (forall i, j :: 0 <= i < j < |r.queue| ==> r.queue[i] != r.queue[j])
  }

  function AddRequest(r: Reads, index: nat, from: Id, ctx: Ctx, self: Id): (r': Reads)
    ensures ReadsOk(r) ==> ReadsOk(r')
  {
    if ctx in r.pending then r
    else Reads(r.pending[ctx := ReadStatus(from, index, {self})], r.queue + [ctx])
  }

  function RecvAck(r: Reads, id: Id, ctx: Ctx): (r': Reads)
    ensures ReadsOk(r) ==> ReadsOk(r')
  {
    if ctx !in r.pending then r
    else
      var st := r.pending[ctx];
      r.(pending := r.pending[ctx := st.(acks := st.acks + {id})])
  }

  /** The first position of `ctx` in `queue`, or its length. */
  function Position(queue: seq<Ctx>, ctx: Ctx): (i: nat)
    ensures i <= |queue|
    ensures i < |queue| ==> queue[i] == ctx
    ensures forall j :: 0 <= j < i ==> queue[j] != ctx
  {
    if queue == [] then 0
    else if queue[0] == ctx then 0
    else 1 + Position(queue[1..], ctx)
  }

  /** The contexts that an acknowledged `ctx` releases: everything queued up to and including it. */
  function Released(r: Reads, ctx: Ctx): (s: seq<Ctx>)
    ensures s <= r.queue
  {
    var i := Position(r.queue, ctx);
    if i < |r.queue| then r.queue[..i + 1] else []
  }

  /** Every context that the search for `ctx` passes must be in the map, and each one that is released
      is removed from it once; otherwise `advance` stops with a failure. */
  predicate CanAdvance(r: Reads, ctx: Ctx) {
    var i := Position(r.queue, ctx);
    && (forall k :: 0 <= k <= i && k < |r.queue| ==> r.queue[k] in r.pending)
    && (i < |r.queue| ==> forall j, k :: 0 <= j < k <= i ==> r.queue[j] != r.queue[k])
  }

  lemma OkCanAdvance(r: Reads, ctx: Ctx)
    requires ReadsOk(r)
    ensures CanAdvance(r, ctx)
    ensures forall c :: c in Released(r, ctx) ==> c in r.pending
  {
  }

  lemma ReleasedPending(r: Reads, ctx: Ctx)
    requires CanAdvance(r, ctx)
    ensures forall c :: c in Released(r, ctx) ==> c in r.pending
  {
  }

  function Advance(r: Reads, ctx: Ctx): Reads {
    var s := Released(r, ctx);
    Reads(map c | c in r.pending && c !in s :: r.pending[c], r.queue[|s|..])
  }

  lemma AdvanceKeepsOk(r: Reads, ctx: Ctx)
    requires ReadsOk(r)
    ensures ReadsOk(Advance(r, ctx))
  {
    var s := Released(r, ctx);
    var r' := Advance(r, ctx);
    forall i | 0 <= i < |r'.queue|
      ensures r'.queue[i] in r'.pending
    {
      assert r'.queue[i] == r.queue[|s| + i];
    }
    forall c | c in r'.pending
      ensures c in r'.queue
    {
      var i :| 0 <= i < |r.queue| && r.queue[i] == c;
      assert i >= |s|;
      assert r'.queue[i - |s|] == c;
    }
  }
}
