/** Which proposals of a batch survive, said without the scan that screens them (raft-rs/src/raft.rs). */
module Screening {
  import opened Types
  import opened LogModel
  import opened LogRuns
  import opened Pipeline

  /** A membership change that may follow the current configuration: out of a joint one only the change that
      leaves it, otherwise any but that. */
  predicate Fits(joint: bool, p: Proposal) {
    IsConfChange(p.entry) && p.leaves == joint
  }

  /** With nothing pending, `k` is the first membership change that fits, and otherwise there is none. That one
      and everything that is no membership change stays as proposed; each other change becomes an empty
      normal entry. */
  ghost predicate ScreenedAs(free: bool, joint: bool, ps: seq<Proposal>, es: seq<Entry>, k: nat) {
    && |es| == |ps| && k <= |ps|
    && (forall i :: 0 <= i < k ==> !(free && Fits(joint, ps[i])))
    && (k < |ps| ==> free && Fits(joint, ps[k]))
    && (forall i :: 0 <= i < |ps| ==>
          es[i] == if !IsConfChange(ps[i].entry) || i == k then ps[i].entry else Entry(EntryNormal, 0, 0, [], []))
  }

  lemma {:induction false} ScreenIs(r: Raw, joint: bool, ps: seq<Proposal>, next: nat) returns (k: nat)
    requires r.log.applied < next
    ensures ScreenedAs(r.pendingConf <= r.log.applied, joint, ps, Screen(r, joint, ps, next).1, k)
    ensures Screen(r, joint, ps, next).0.pendingConf == if k < |ps| then next + k else r.pendingConf
    decreases |ps|
  {
    hide Screen;
    if ps == [] {
      k := 0;
      ScreenNone(r, joint, next);
    } else {
      var passes := r.pendingConf <= r.log.applied && Fits(joint, ps[0]);
      var r1 := if passes then r.(pendingConf := next) else r;
      var k1 := ScreenIs(r1, joint, ps[1..], next + 1);
      ScreenFirst(r, joint, ps, next, r1);
      k := if passes then 0 else 1 + k1;
      var es, es1 := Screen(r, joint, ps, next).1, Screen(r1, joint, ps[1..], next + 1).1;
      forall i | 0 < i < |ps|
        ensures es[i] == es1[i - 1] && ps[i] == ps[1..][i - 1]
      {
      }
    }
  }

  lemma ScreenNone(r: Raw, joint: bool, next: nat)
    ensures Screen(r, joint, [], next) == (r, [])
  {
  }

  lemma ScreenFirst(r: Raw, joint: bool, ps: seq<Proposal>, next: nat, r1: Raw)
    requires ps != []
    requires r1 == if r.pendingConf <= r.log.applied && Fits(joint, ps[0]) then r.(pendingConf := next) else r
    ensures var es := Screen(r, joint, ps, next).1;
            && |es| == |ps| && es[1..] == Screen(r1, joint, ps[1..], next + 1).1
            && es[0] == if !IsConfChange(ps[0].entry) || (r.pendingConf <= r.log.applied && Fits(joint, ps[0])) then ps[0].entry
                        else Entry(EntryNormal, 0, 0, [], [])
    ensures Screen(r, joint, ps, next).0 == Screen(r1, joint, ps[1..], next + 1).0
  {
  }

  /** The first `n` proposals can be read, and the next one, if any, cannot. */
  predicate ReadableTo(ps: seq<Proposal>, n: nat) {
    && n <= |ps| && (forall i :: 0 <= i < n && IsConfChange(ps[i].entry) ==> ps[i].parses)
    && (n < |ps| ==> IsConfChange(ps[n].entry) && !ps[n].parses)
  }

  lemma ReadableIs(ps: seq<Proposal>, n: nat)
    requires ReadableTo(ps, n)
    ensures n == Readable(ps)
  {
    hide Readable;
    assert Readable(ps) >= n;
  }

  /** What the screening of a batch leaves over. */
  lemma ScreenedIs(r: Raw, joint: bool, ps: seq<Proposal>, n: nat) returns (k: nat)
    requires LogOk(r.log) && r.log.applied <= Last(Abs(r.log)) && ReadableTo(ps, n)
    ensures ScreenedAs(r.pendingConf <= r.log.applied, joint, ps[..n], Screened(r, joint, ps).1, k)
    ensures Screened(r, joint, ps).0 == r.(pendingConf := if k < n then Last(Abs(r.log)) + 1 + k else r.pendingConf)
  {
    ReadableIs(ps, n);
    IndexesRefine(r.log);
    hide LogOk, Abs, Screen, Readable;
    k := ScreenIs(r, joint, ps[..n], LastIndex(r.log) + 1);
  }

  /** The log `g'` is `g` with the entries behind it, stamped with the term and the next indexes. */
  ghost predicate Appended(g: Log, es: seq<Entry>, term: nat, g': Log) {
    && g'.base == g.base && g'.baseTerm == g.baseTerm
    && |g'.entries| == |g.entries| + |es| && g'.entries[..|g.entries|] == g.entries
    && forall i :: 0 <= i < |es| ==> g'.entries[|g.entries| + i] == es[i].(term := term, index := Last(g) + 1 + i)
  }

  lemma StampAppends(g: Log, es: seq<Entry>, term: nat)
    ensures Appended(g, es, term, g.(entries := g.entries + Stamp(es, term, Last(g))))
  {
  }
}
