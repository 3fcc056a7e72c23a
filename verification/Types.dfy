/** Values shared by every part of the model: identifiers, log entries and byte strings. */
module Types {

  /** A node identifier. Zero is the reserved "no node" value. */
  type Id = nat

  const NONE: Id := 0

  newtype byte = x: int | 0 <= x < 256

  type Bytes = seq<byte>

  datatype EntryType = EntryNormal | EntryConfChange | EntryConfChangeV2

  datatype Entry = Entry(etype: EntryType, term: nat, index: nat, data: Bytes, context: Bytes)

  datatype Option<+T> = None | Some(value: T)

  function Min(a: int, b: int): int {
    if a <= b then a else b
  }

  function Max(a: int, b: int): int {
    if a <= b then b else a
  }

  /** True for the two entry kinds that carry a membership change. */
  predicate IsConfChange(e: Entry) {
    e.etype != EntryNormal
  }

  /** A prefix of a prefix. */
  lemma TakeLess<T>(a: seq<T>, b: seq<T>, k: nat, c: nat)
    requires c <= k <= |a| && a[..k] <= b
    ensures c <= |b| && a[..c] == b[..c]
  {
    assert a[..c] == a[..k][..c];
    assert b[..c] == b[..k][..c];
  }
}
