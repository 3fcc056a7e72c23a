/** The commit index that a set of acknowledged indexes allows, plain or by groups
    (raft-rs/src/quorum/majority.rs, raft-rs/src/quorum/joint.rs). */
module CommitIndex {
  import opened Types
  import opened Quorum
  import opened RaftNode

  /** An acknowledged index and the commit group of the voter; group zero means no group. */
  datatype Index = Index(index: Word, group: nat)

  type Acks = map<Id, Index>

  /** The largest u64, which stands for "no limit". */
  const MAX_INDEX: nat := 0xFFFF_FFFF_FFFF_FFFF

  type Word = n: nat | n <= MAX_INDEX

  /** A voter that has not been heard of has acknowledged nothing. */
  function AckOf(l: Acks, v: Id): Index {
    if v in l then l[v] else Index(0, 0)
  }

  function AckedAt(voters: set<Id>, l: Acks, i: nat): set<Id> {
    set v | v in voters && AckOf(l, v).index >= i
  }

  ghost predicate MajorityAcked(voters: set<Id>, l: Acks, i: nat) {
    |AckedAt(voters, l, i)| >= Majority(|voters|)
  }

  /** Two members of `s` belong to different groups. */
  ghost predicate TwoGroups(s: set<Id>, l: Acks) {
    exists u, v :: u in s && v in s && AckOf(l, u).group != 0 && AckOf(l, v).group != 0
      && AckOf(l, u).group != AckOf(l, v).group
  }

  ghost predicate GroupAcked(voters: set<Id>, l: Acks, i: nat) {
    MajorityAcked(voters, l, i) && TwoGroups(AckedAt(voters, l, i), l)
  }

  /** The greatest index acknowledged by a majority. */
  ghost predicate GreatestAcked(voters: set<Id>, l: Acks, r: nat) {
    MajorityAcked(voters, l, r) && forall i: nat :: MajorityAcked(voters, l, i) ==> i <= r
  }

  /** The greatest index acknowledged by a majority and in two groups. */
  ghost predicate GreatestGroupAcked(voters: set<Id>, l: Acks, r: nat) {
    GroupAcked(voters, l, r) && forall i: nat :: GroupAcked(voters, l, i) ==> i <= r
  }

  ghost predicate IsLeast(voters: set<Id>, l: Acks, r: nat) {
    && (exists v :: v in voters && AckOf(l, v).index == r)
    && forall v :: v in voters ==> r <= AckOf(l, v).index
  }

  /** What the commit index of one majority configuration means. Without two groups to span, the
      grouped computation falls back to the plain index, or to the least one if some voter has no group. */
  ghost predicate CommitMeans(voters: set<Id>, useGroup: bool, l: Acks, r: nat, grouped: bool) {
    if voters == {} then r == MAX_INDEX && grouped
    else if !useGroup then GreatestAcked(voters, l, r) && !grouped
    else
      && (grouped <==> TwoGroups(voters, l))
      && (grouped ==> GreatestGroupAcked(voters, l, r))
      && (!grouped && (forall v :: v in voters ==> AckOf(l, v).group != 0) ==>
            GreatestAcked(voters, l, r))
      && (!grouped && (exists v :: v in voters && AckOf(l, v).group == 0) ==> IsLeast(voters, l, r))
  }

  // ----- listing the voters

  /** `ids` lists every voter once, in any order, and `a` holds their acknowledgements. */
  ghost predicate Lists(voters: set<Id>, l: Acks, ids: seq<Id>, a: seq<Index>) {
    && |ids| == |a|
    && (forall k :: 0 <= k < |ids| ==> ids[k] in voters && a[k] == AckOf(l, ids[k]))
    && (forall j, k :: 0 <= j < k < |ids| ==> ids[j] != ids[k])
    && (forall v :: v in voters ==> v in ids)
  }

  ghost predicate Descending(a: seq<Index>) {
    forall j, k :: 0 <= j < k < |a| ==> a[j].index >= a[k].index
  }

  function Members(ids: seq<Id>): set<Id> {
    set v | v in ids
  }

  lemma {:induction false} DistinctSize(ids: seq<Id>)
    requires forall j, k :: 0 <= j < k < |ids| ==> ids[j] != ids[k]
    ensures |Members(ids)| == |ids|
  {
    if ids != [] {
      var n := |ids| - 1;
      DistinctSize(ids[..n]);
      assert Members(ids) == Members(ids[..n]) + {ids[n]};
      assert ids[n] !in Members(ids[..n]);
    }
  }

  lemma ListedSize(voters: set<Id>, l: Acks, ids: seq<Id>, a: seq<Index>)
    requires Lists(voters, l, ids, a)
    ensures |a| == |voters|
  {
    DistinctSize(ids);
    assert Members(ids) == voters;
  }

  /** In a descending list, the first `k` have acknowledged what the `k`-th has, and anything
      greater was acknowledged by fewer than `k`. */
  lemma AckedPrefix(voters: set<Id>, l: Acks, ids: seq<Id>, a: seq<Index>, k: nat)
    requires Lists(voters, l, ids, a) && Descending(a) && 0 < k <= |a|
    ensures |AckedAt(voters, l, a[k - 1].index)| >= k
    ensures forall i: nat :: i > a[k - 1].index ==> |AckedAt(voters, l, i)| < k
  {
    DistinctSize(ids[..k]);
    SubsetSize(Members(ids[..k]), AckedAt(voters, l, a[k - 1].index));
    forall i: nat | i > a[k - 1].index
      ensures |AckedAt(voters, l, i)| < k
    {
      DistinctSize(ids[..k - 1]);
      SubsetSize(AckedAt(voters, l, i), Members(ids[..k - 1]));
    }
  }

  lemma QuorumIndex(voters: set<Id>, l: Acks, ids: seq<Id>, a: seq<Index>)
    requires Lists(voters, l, ids, a) && Descending(a) && a != []
    ensures Majority(|a|) <= |a|
    ensures GreatestAcked(voters, l, a[Majority(|a|) - 1].index)
  {
    ListedSize(voters, l, ids, a);
    AckedPrefix(voters, l, ids, a, Majority(|a|));
  }

  /** Fewer voters have acknowledged a greater index. */
  lemma AckedShrinks(voters: set<Id>, l: Acks, i: nat, j: nat)
    requires i <= j
    ensures AckedAt(voters, l, j) <= AckedAt(voters, l, i)
    ensures |AckedAt(voters, l, j)| <= |AckedAt(voters, l, i)|
  {
    SubsetSize(AckedAt(voters, l, j), AckedAt(voters, l, i));
  }

  // ----- sorting

  method SortDescending(a: array<Index>, voters: set<Id>, l: Acks, ghost ids: seq<Id>) returns (ghost sorted: seq<Id>)
    requires Lists(voters, l, ids, a[..])
    modifies a
    ensures Lists(voters, l, sorted, a[..]) && Descending(a[..])
    ensures multiset(a[..]) == multiset(old(a[..]))
  {
    sorted := ids;
    var i := 0;
    while i < a.Length
      invariant 0 <= i <= a.Length
      invariant Lists(voters, l, sorted, a[..])
      invariant Descending(a[..i])
      invariant multiset(a[..]) == multiset(old(a[..]))
    {
      sorted := Insert(a, i, voters, l, sorted);
      i := i + 1;
    }
    assert a[..i] == a[..];
  }

  /** Every pair but those with `j` on the right is in order. */
  ghost predicate AlmostDescending(a: seq<Index>, j: nat) {
    forall x, y :: 0 <= x < y < |a| && y != j ==> a[x].index >= a[y].index
  }

  function Swap<T>(s: seq<T>, j: nat): (r: seq<T>)
    requires 0 < j < |s|
    ensures |r| == |s| && r[j - 1] == s[j] && r[j] == s[j - 1]
    ensures forall x :: 0 <= x < |s| && x != j && x != j - 1 ==> r[x] == s[x]
  {
    s[j - 1 := s[j]][j := s[j - 1]]
  }

  lemma SwapKeeps(voters: set<Id>, l: Acks, ids: seq<Id>, a: seq<Index>, j: nat)
    requires Lists(voters, l, ids, a) && 0 < j < |a|
    ensures Lists(voters, l, Swap(ids, j), Swap(a, j))
  {
    var ids' := Swap(ids, j);
    hide Swap;
    forall v | v in voters
      ensures v in ids'
    {
      var x :| 0 <= x < |ids| && ids[x] == v;
      assert ids'[if x == j then j - 1 else if x == j - 1 then j else x] == v;
    }
  }

  lemma SwapMultiset<T>(s: seq<T>, j: nat)
    requires 0 < j < |s|
    ensures multiset(Swap(s, j)) == multiset(s)
  {
  }

  lemma SwapSorts(a: seq<Index>, j: nat)
    requires 0 < j < |a| && AlmostDescending(a, j) && a[j - 1].index < a[j].index
    ensures AlmostDescending(Swap(a, j), j - 1)
  {
  }

  method SwapDown(a: array<Index>, ghost i: nat, j: nat)
    requires 0 < j <= i < a.Length
    modifies a
    ensures a[..] == Swap(old(a[..]), j) && a[..i + 1] == Swap(old(a[..i + 1]), j)
    ensures multiset(a[..]) == multiset(old(a[..]))
  {
    SwapMultiset(a[..], j);
    a[j - 1], a[j] := a[j], a[j - 1];
    assert a[..] == Swap(old(a[..]), j);
    assert a[..i + 1] == Swap(old(a[..i + 1]), j);
  }

  method Insert(a: array<Index>, i: nat, voters: set<Id>, l: Acks, ghost ids: seq<Id>) returns (ghost moved: seq<Id>)
    requires i < a.Length && Lists(voters, l, ids, a[..]) && Descending(a[..i])
    modifies a
    ensures Lists(voters, l, moved, a[..]) && Descending(a[..i + 1])
    ensures multiset(a[..]) == multiset(old(a[..]))
  {
    hide Lists, Swap;
    moved := ids;
    var j := i;
    ListsLength(voters, l, ids, a[..]);
    while j > 0 && a[j - 1].index < a[j].index
      invariant 0 <= j <= i && |moved| == a.Length
      invariant Lists(voters, l, moved, a[..])
      invariant AlmostDescending(a[..i + 1], j)
      invariant multiset(a[..]) == multiset(old(a[..]))
    {
      SwapKeeps(voters, l, moved, a[..], j);
      SwapSorts(a[..i + 1], j);
      SwapDown(a, i, j);
      moved := Swap(moved, j);
      j := j - 1;
    }
    LastPairOrdered(a[..i + 1], j);
  }

  lemma ListsLength(voters: set<Id>, l: Acks, ids: seq<Id>, a: seq<Index>)
    requires Lists(voters, l, ids, a)
    ensures |ids| == |a|
  {
  }

  lemma LastPairOrdered(a: seq<Index>, j: nat)
    requires j < |a| && AlmostDescending(a, j) && (j > 0 ==> a[j - 1].index >= a[j].index)
    ensures Descending(a)
  {
  }

  // ----- scanning for a second group

  /** Every nonzero group before position `k` is `group`, and `group` occurs at or above what is there. */
  ghost predicate OneGroup(a: seq<Index>, k: nat, group: nat) {
    k <= |a| && forall j :: 0 <= j < k ==> a[j].group == 0 || a[j].group == group
  }

  /** The commit index of one majority configuration. */
  method CommittedIndex(voters: set<Id>, useGroup: bool, l: Acks) returns (r: nat, grouped: bool)
    ensures CommitMeans(voters, useGroup, l, r, grouped)
  {
    if voters == {} {
      return MAX_INDEX, true;
    }
    var matched, ids := Collect(voters, l);
    ids := SortDescending(matched, voters, l, ids);
    QuorumIndex(voters, l, ids, matched[..]);
    ListedSize(voters, l, ids, matched[..]);
    if !useGroup {
      r, grouped := matched[Majority(matched.Length) - 1].index, false;
    } else {
      r, grouped := GroupIndex(matched, voters, l, ids);
    }
  }

  method GroupIndex(matched: array<Index>, voters: set<Id>, l: Acks, ghost ids: seq<Id>) returns (r: nat, grouped: bool)
    requires matched.Length > 0 && Lists(voters, l, ids, matched[..]) && Descending(matched[..])
    requires voters != {} && Majority(matched.Length) <= matched.Length
    requires GreatestAcked(voters, l, matched[Majority(matched.Length) - 1].index)
    ensures CommitMeans(voters, true, l, r, grouped)
  {
    hide Lists, Descending, GreatestAcked, GreatestGroupAcked, TwoGroups, IsLeast;
    ghost var a := matched[..];
    var quorumIndex := matched[Majority(matched.Length) - 1];
    var checkedGroup := quorumIndex.group;
    var singleGroup := true;
    var k := 0;
    while k < matched.Length
      invariant 0 <= k <= matched.Length
      invariant OneGroup(a, k, checkedGroup)
      invariant singleGroup <==> forall j :: 0 <= j < k ==> a[j].group != 0
      invariant checkedGroup == quorumIndex.group || (exists j :: 0 <= j < k && a[j].group == checkedGroup)
    {
      var m := matched[k];
      if m.group == 0 {
        singleGroup := false;
      } else if checkedGroup == 0 {
        checkedGroup := m.group;
      } else if checkedGroup != m.group {
        SecondGroup(voters, l, ids, a, k, checkedGroup);
        return Min(m.index, quorumIndex.index), true;
      }
      k := k + 1;
    }
    OnlyOneGroup(voters, l, ids, a, checkedGroup);
    LastIsLeast(voters, l, ids, a);
    r := if singleGroup then quorumIndex.index else matched[matched.Length - 1].index;
    grouped := false;
  }

  method Collect(voters: set<Id>, l: Acks) returns (a: array<Index>, ghost ids: seq<Id>)
    ensures fresh(a) && a.Length == |voters| && Lists(voters, l, ids, a[..])
  {
    a := new Index[|voters|](i => Index(0, 0));
    ids := [];
    var rest := voters;
    var i := 0;
    while rest != {}
      invariant rest <= voters && i == |ids| && i + |rest| == a.Length
      invariant Lists(voters - rest, l, ids, a[..i])
      decreases |rest|
    {
      var v :| v in rest;
      a[i] := AckOf(l, v);
      ids := ids + [v];
      rest := rest - {v};
      i := i + 1;
    }
    assert a[..i] == a[..];
    assert voters - rest == voters;
  }

  /** The first voter of a second group decides. */
  lemma SecondGroup(voters: set<Id>, l: Acks, ids: seq<Id>, a: seq<Index>, k: nat, group: nat)
    requires Lists(voters, l, ids, a) && Descending(a) && k < |a| && Majority(|a|) <= |a|
    requires OneGroup(a, k, group) && group != 0 && a[k].group != 0 && a[k].group != group
    requires GreatestAcked(voters, l, a[Majority(|a|) - 1].index)
    requires a[Majority(|a|) - 1].group == group || exists j :: 0 <= j < k && a[j].group == group
    ensures TwoGroups(voters, l)
    ensures GreatestGroupAcked(voters, l, Min(a[k].index, a[Majority(|a|) - 1].index))
  {
    var q := Majority(|a|) - 1;
    var r := Min(a[k].index, a[q].index);
    var j :| 0 <= j < |a| && a[j].group == group && (j == q || j < k);
    assert ids[j] in AckedAt(voters, l, r) && ids[k] in AckedAt(voters, l, r);
    AckedShrinks(voters, l, r, a[q].index);
    hide Lists, Descending, OneGroup;
    forall i: nat | GroupAcked(voters, l, i)
      ensures i <= r
    {
      NoSecondGroupAbove(voters, l, ids, a, k, group, i);
    }
  }

  lemma NoSecondGroupAbove(voters: set<Id>, l: Acks, ids: seq<Id>, a: seq<Index>, k: nat, group: nat, i: nat)
    requires Lists(voters, l, ids, a) && Descending(a) && k < |a| && OneGroup(a, k, group)
    ensures i > a[k].index ==> !TwoGroups(AckedAt(voters, l, i), l)
  {
    if i > a[k].index {
      forall u | u in AckedAt(voters, l, i)
        ensures AckOf(l, u).group == 0 || AckOf(l, u).group == group
      {
        var x :| 0 <= x < |ids| && ids[x] == u;
        assert a[x].index > a[k].index;
      }
    }
  }

  lemma OnlyOneGroup(voters: set<Id>, l: Acks, ids: seq<Id>, a: seq<Index>, group: nat)
    requires Lists(voters, l, ids, a) && OneGroup(a, |a|, group)
    ensures !TwoGroups(voters, l)
    ensures (exists j :: 0 <= j < |a| && a[j].group == 0) <==> (exists v :: v in voters && AckOf(l, v).group == 0)
  {
    forall v | v in voters
      ensures exists j :: 0 <= j < |a| && a[j] == AckOf(l, v)
    {
      var x :| 0 <= x < |ids| && ids[x] == v;
    }
    forall j | 0 <= j < |a|
      ensures ids[j] in voters && a[j] == AckOf(l, ids[j])
    {
    }
  }

  lemma LastIsLeast(voters: set<Id>, l: Acks, ids: seq<Id>, a: seq<Index>)
    requires Lists(voters, l, ids, a) && Descending(a) && a != []
    ensures IsLeast(voters, l, a[|a| - 1].index)
  {
    assert ids[|a| - 1] in voters;
    forall v | v in voters
      ensures a[|a| - 1].index <= AckOf(l, v).index
    {
      var x :| 0 <= x < |ids| && ids[x] == v;
    }
  }

  // ----- what follows from the meaning

  /** Neither the order of the voters nor the order of equal indexes matters: the meaning fixes the result. */
  lemma CommitIsUnique(voters: set<Id>, useGroup: bool, l: Acks, r: nat, b: bool, r': nat, b': bool)
    requires CommitMeans(voters, useGroup, l, r, b) && CommitMeans(voters, useGroup, l, r', b')
    ensures r == r' && b == b'
  {
  }

  /** Whatever the groups, the result was acknowledged by a majority. */
  lemma CommitHasMajority(voters: set<Id>, useGroup: bool, l: Acks, r: nat, b: bool)
    requires voters != {} && CommitMeans(voters, useGroup, l, r, b)
    ensures MajorityAcked(voters, l, r)
  {
    if IsLeast(voters, l, r) {
      assert AckedAt(voters, l, r) == voters;
    }
  }

  // ----- joint configurations

  ghost predicate JointAcked(cfg: JointConfig, l: Acks, i: nat) {
    && (cfg.incoming != {} ==> MajorityAcked(cfg.incoming, l, i))
    && (cfg.outgoing != {} ==> MajorityAcked(cfg.outgoing, l, i))
  }

  ghost predicate JointGroupAcked(cfg: JointConfig, l: Acks, i: nat) {
    && (cfg.incoming != {} ==> GroupAcked(cfg.incoming, l, i))
    && (cfg.outgoing != {} ==> GroupAcked(cfg.outgoing, l, i))
  }

  ghost predicate SpansGroups(cfg: JointConfig, l: Acks) {
    && (cfg.incoming != {} ==> TwoGroups(cfg.incoming, l))
    && (cfg.outgoing != {} ==> TwoGroups(cfg.outgoing, l))
  }

  /** The commit index of a joint configuration: the greatest index that every half with voters
      acknowledged, by groups if each of them spans two. Without any voter there is no limit. */
  method JointCommittedIndex(cfg: JointConfig, useGroup: bool, l: Acks) returns (r: nat, grouped: bool)
    ensures Voters(cfg) == {} ==> r == MAX_INDEX && grouped
    ensures Voters(cfg) != {} ==>
              && JointAcked(cfg, l, r)
              && (!useGroup ==> forall i: nat :: JointAcked(cfg, l, i) ==> i <= r)
              && (grouped <==> useGroup && SpansGroups(cfg, l))
              && (grouped ==> JointGroupAcked(cfg, l, r) && forall i: nat :: JointGroupAcked(cfg, l, i) ==> i <= r)
    ensures HalvesMean(cfg, useGroup, l, r)
  {
    var i, bi := CommittedIndex(cfg.incoming, useGroup, l);
    var o, bo := CommittedIndex(cfg.outgoing, useGroup, l);
    r, grouped := Min(i, o), bi && bo;
    HalfAcked(cfg.incoming, useGroup, l, i, bi, r);
    HalfAcked(cfg.outgoing, useGroup, l, o, bo, r);
    assert BothMean(cfg, useGroup, l, r, i, bi, o, bo);
  }

  ghost predicate BothMean(cfg: JointConfig, useGroup: bool, l: Acks, r: nat, i: nat, bi: bool, o: nat, bo: bool) {
    CommitMeans(cfg.incoming, useGroup, l, i, bi) && CommitMeans(cfg.outgoing, useGroup, l, o, bo) && r == Min(i, o)
  }

  /** The result is the lesser of the two halves' commit indexes, which are each determined. */
  ghost predicate HalvesMean(cfg: JointConfig, useGroup: bool, l: Acks, r: nat) {
    exists i, bi, o, bo :: BothMean(cfg, useGroup, l, r, i, bi, o, bo)
  }

  /** The meaning of one half's result carries down to any lower index. */
  lemma HalfAcked(voters: set<Id>, useGroup: bool, l: Acks, i: nat, b: bool, r: nat)
    requires CommitMeans(voters, useGroup, l, i, b) && r <= i
    ensures voters != {} ==> MajorityAcked(voters, l, r) && i <= MAX_INDEX
    ensures voters != {} && useGroup && b ==> GroupAcked(voters, l, r)
  {
    if voters != {} {
      CommitHasMajority(voters, useGroup, l, i, b);
      AckedShrinks(voters, l, r, i);
      AckedIsWord(voters, l, i);
    }
  }

  lemma AckedIsWord(voters: set<Id>, l: Acks, i: nat)
    requires voters != {} && MajorityAcked(voters, l, i)
    ensures i <= MAX_INDEX
  {
    var v :| v in AckedAt(voters, l, i);
  }

  /** Whatever the leader's commit rule computes from the acknowledged indexes, a quorum has acknowledged it. */
  lemma JointAckedIsQuorum(cfg: JointConfig, l: Acks, i: nat, acked: set<Id>)
    requires forall v :: v in Voters(cfg) ==> (v in acked <==> AckOf(l, v).index >= i)
    ensures JointAcked(cfg, l, i) <==> IsQuorum(cfg, acked)
  {
    assert AckedAt(cfg.incoming, l, i) == cfg.incoming * acked;
    assert AckedAt(cfg.outgoing, l, i) == cfg.outgoing * acked;
  }

  /** The index that `maximal_committed_index` computes is one the cluster model lets a leader commit. */
  lemma CommitIndexIsCommittable(g: Group, matched: map<Id, nat>, l: Acks, r: nat)
    requires l.Keys == matched.Keys && forall v :: v in l ==> l[v].index == matched[v]
    requires JointAcked(g.cfg, l, r)
    ensures Committable(g, matched, r)
  {
    if r > 0 {
      JointAckedIsQuorum(g.cfg, l, r, Acked(matched, r));
    }
  }
}
