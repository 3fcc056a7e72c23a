/** The window of append messages in flight to one follower: a resizable ring buffer
    (raft-rs/src/tracker/inflights.rs) that refines a bounded FIFO queue. */
module Inflights {
  import opened Types

  // ----- the FIFO queue it stands for

  /** `pending` is a lower capacity that takes effect once the queue is empty. */
  datatype Fifo = Fifo(items: seq<nat>, cap: nat, pending: Option<nat>)

  predicate FifoOk(q: Fifo) {
    && |q.items| <= q.cap
    && (q.pending.Some? ==> q.pending.value < q.cap && q.items != [])
  }

  predicate IsFull(q: Fifo) {
    |q.items| == q.cap || (q.pending.Some? && |q.items| >= q.pending.value)
  }

  /** Where the longest run of values at most `to` that starts at `i` ends. */
  function Prefix(items: seq<nat>, to: nat, i: nat): (r: nat)
    requires i <= |items|
    ensures i <= r <= |items|
    ensures forall k :: i <= k < r ==> items[k] <= to
    ensures r < |items| ==> items[r] > to
    decreases |items| - i
  {
    if i < |items| && items[i] <= to then Prefix(items, to, i + 1) else i
  }

  /** What remains after the longest prefix of values at most `to` is dropped. */
  function Drop(items: seq<nat>, to: nat): seq<nat> {
    items[Prefix(items, to, 0)..]
  }

  /** An emptied queue takes its pending capacity. */
  function Settle(q: Fifo): Fifo {
    if q.items == [] && q.pending.Some? then Fifo([], q.pending.value, None) else q
  }

  function Freed(q: Fifo, to: nat): Fifo {
    Settle(q.(items := Drop(q.items, to)))
  }

  function Resized(q: Fifo, cap: nat): Fifo {
    if cap < q.cap && q.items != [] then q.(pending := Some(cap)) else Fifo(q.items, cap, None)
  }

  function Emptied(q: Fifo): Fifo {
    Settle(q.(items := []))
  }

  // ----- the ring buffer

  class Ring {
    var start: nat
    var count: nat
    var buffer: seq<nat>
    var hasBuffer: bool
    var cap: nat
    var incomingCap: Option<nat>

    ghost predicate Valid()
      reads this
    {
      && count <= cap && |buffer| <= cap
      && start <= |buffer| && (start < cap || start == 0)
      && (start + count <= cap ==> start + count <= |buffer|)
      && (start + count > cap ==> |buffer| == cap)
      && (buffer != [] ==> hasBuffer)
      && (incomingCap.Some? ==> incomingCap.value < cap && count > 0)
    }

    /** The position in the buffer of the `k`-th value of the window. */
    function Slot(k: nat): nat
      reads this
    {
      if start + k >= cap then start + k - cap else start + k
    }

    ghost function Window(): (w: seq<nat>)
      requires Valid()
      reads this
      ensures |w| == count
      ensures forall k :: 0 <= k < count ==> w[k] == buffer[Slot(k)]
    {
      seq(count, k requires 0 <= k < count reads this requires Valid() => buffer[Slot(k)])
    }

    ghost function Abs(): (q: Fifo)
      requires Valid()
      reads this
      ensures FifoOk(q)
    {
      Fifo(Window(), cap, incomingCap)
    }

    constructor (cap: nat)
      ensures Valid() && Abs() == Fifo([], cap, None)
    {
      start, count, buffer, hasBuffer := 0, 0, [], cap > 0;
      this.cap, incomingCap := cap, None;
    }

    predicate Full()
      requires Valid()
      reads this
      ensures Full() <==> IsFull(Abs())
    {
      count == cap || (incomingCap.Some? && count >= incomingCap.value)
    }

    /** Adjusts the capacity: growing is immediate, shrinking waits until the window is empty. */
    method SetCap(newCap: nat)
      requires Valid()
      modifies this
      ensures Valid() && Abs() == Resized(old(Abs()), newCap)
    {
      if cap == newCap {
        incomingCap := None;
      } else if cap < newCap {
        Grow(newCap);
      } else if count == 0 {
        cap, incomingCap, start := newCap, None, 0;
        if hasBuffer {
          buffer, hasBuffer := [], newCap > 0;
        }
      } else {
        incomingCap := Some(newCap);
      }
      assert Window() == old(Window());
    }

    /** A window that wraps around is copied to the front of a new buffer. */
    method Grow(newCap: nat)
      requires Valid() && cap < newCap
      modifies this
      ensures Valid() && Abs() == Fifo(old(Window()), newCap, None)
    {
      if start + count > cap {
        buffer := buffer[start..] + buffer[..count - (cap - start)];
        start := 0;
        hasBuffer := true;
      }
      cap, incomingCap := newCap, None;
      assert Window() == old(Window());
    }

    method Add(inflight: nat)
      requires Valid() && !Full()
      modifies this
      ensures Valid() && Abs() == old(Abs()).(items := old(Abs()).items + [inflight])
    {
      if !hasBuffer {
        buffer, hasBuffer := [], cap > 0;
      }
      var next := start + count;
      if next >= cap {
        next := next - cap;
      }
      if next == |buffer| {
        buffer := buffer + [inflight];
      } else {
        buffer := buffer[next := inflight];
      }
      count := count + 1;
      assert Window() == old(Window()) + [inflight];
    }

    /** Frees the values at the front that are at most `to`. */
    method FreeTo(to: nat)
      requires Valid()
      modifies this
      ensures Valid() && Abs() == Freed(old(Abs()), to)
    {
      if count == 0 || to < buffer[start] {
        return;
      }
      var i, idx := FirstLarge(to);
      Release(i, idx);
    }

    /** Releases the first `i` values; slot `idx` follows them. */
    method Release(i: nat, idx: nat)
      requires Valid() && i <= count && idx == Slot(i)
      modifies this
      ensures Valid() && Abs() == Settle(old(Abs()).(items := old(Abs()).items[i..]))
    {
      ghost var rest := Window()[i..];
      count, start := count - i, idx;
      if count == 0 {
        if incomingCap.Some? {
          start, cap, incomingCap := 0, incomingCap.value, None;
          buffer, hasBuffer := [], cap > 0;
        }
      }
      assert Window() == rest;
    }

    /** The length of the longest prefix of values at most `to`, and the slot that follows it. */
    method FirstLarge(to: nat) returns (i: nat, idx: nat)
      requires Valid() && count > 0
      ensures i <= count && idx == Slot(i) && i == Prefix(Window(), to, 0)
    {
      ghost var w := Window();
      i, idx := 0, start;
      while i < count
        invariant 0 <= i <= count && idx == Slot(i)
        invariant Prefix(w, to, 0) == Prefix(w, to, i)
      {
        if to < buffer[idx] {
          break;
        }
        idx := idx + 1;
        if idx >= cap {
          idx := idx - cap;
        }
        i := i + 1;
      }
    }

    method FreeFirstOne()
      requires Valid()
      modifies this
      ensures Valid()
      ensures Abs() == if old(Abs()).items == [] then old(Abs()) else Freed(old(Abs()), old(Abs()).items[0])
    {
      if count > 0 {
        FreeTo(buffer[start]);
      }
    }

    method Reset()
      requires Valid()
      modifies this
      ensures Valid() && Abs() == Emptied(old(Abs()))
    {
      count, start, buffer, hasBuffer := 0, 0, [], false;
      cap := match incomingCap case Some(c) => c case None => cap;
      incomingCap := None;
    }

    method MaybeFreeBuffer()
      requires Valid()
      modifies this
      ensures Valid() && Abs() == old(Abs())
    {
      if count == 0 {
        start, buffer, hasBuffer := 0, [], false;
      }
    }
  }

  // ----- any mix of operations

  datatype Op = OpAdd(value: nat) | OpFree(to: nat) | OpFreeFirst | OpResize(cap: nat) | OpReset

  /** Adding to a full window panics, so it is not a step. */
  predicate Enabled(q: Fifo, op: Op) {
    op.OpAdd? ==> !IsFull(q)
  }

  function Apply(q: Fifo, op: Op): Fifo {
    match op
    case OpAdd(v) => q.(items := q.items + [v])
    case OpFree(to) => Freed(q, to)
    case OpFreeFirst => if q.items == [] then q else Freed(q, q.items[0])
    case OpResize(cap) => Resized(q, cap)
    case OpReset => Emptied(q)
  }

  /** Every operation keeps the window within its capacity, and a delayed shrink only while in use. */
  lemma ApplyKeepsOk(q: Fifo, op: Op)
    requires FifoOk(q) && Enabled(q, op)
    ensures FifoOk(Apply(q, op))
  {
  }

  ghost predicate Sorted(s: seq<nat>) {
    forall j, k :: 0 <= j < k < |s| ==> s[j] <= s[k]
  }

  /** While the values are added in order, freeing keeps exactly the values above `to`. */
  lemma FreedKeepsGreater(q: Fifo, to: nat, v: nat)
    requires FifoOk(q) && Sorted(q.items)
    ensures v in Freed(q, to).items <==> v in q.items && v > to
  {
    var w, p := q.items, Prefix(q.items, to, 0);
    if v in w && v > to {
      var k :| 0 <= k < |w| && w[k] == v;
      assert w[p..][k - p] == v;
    }
    if v in w[p..] {
      var k :| p <= k < |w| && w[k] == v;
      assert w[p] <= w[k];
    }
    hide Prefix;
  }
}
