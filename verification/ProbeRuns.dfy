/** How a leader finds the point up to which a follower's log agrees with its own
    (raft-rs/src/raft.rs, raft-rs/src/raft_log.rs, raft-rs/src/tracker/progress.rs). */
module ProbeRuns {
  import opened Types
  import opened RaftNode
  import LogModel
  import opened Flow

  // ----- two logs

  predicate TermsGrow(log: seq<Entry>) {
    && (forall i :: 0 <= i < |log| ==> log[i].term > 0)
    && (forall i, j :: 0 <= i < j < |log| ==> log[i].term <= log[j].term)
  }

  /** What an election-safe cluster guarantees: entries of the same index and term have the same past. */
  ghost predicate Match(a: seq<Entry>, b: seq<Entry>) {
    forall i :: 0 < i <= |a| && i <= |b| && a[i - 1].term == b[i - 1].term ==> a[..i] == b[..i]
  }

  ghost predicate Agree(a: seq<Entry>, b: seq<Entry>, i: nat) {
    i <= |a| && i <= |b| && a[..i] == b[..i]
  }

  /** The length of the longest common prefix. */
  ghost predicate IsMatchPoint(a: seq<Entry>, b: seq<Entry>, m: nat) {
    Agree(a, b, m) && forall i: nat :: Agree(a, b, i) ==> i <= m
  }

  ghost predicate TwoLogs(l: seq<Entry>, f: seq<Entry>, m: nat) {
    TermsGrow(l) && TermsGrow(f) && Match(l, f) && IsMatchPoint(l, f, m)
  }

  lemma TermsOrdered(log: seq<Entry>, i: nat, j: nat)
    requires TermsGrow(log) && i <= j <= |log|
    ensures TermAt(log, i) <= TermAt(log, j) && (i > 0 ==> TermAt(log, i) > 0)
  {
  }

  /** Inside both logs, equal terms at an index mean that the index is at or before the match point. */
  lemma SameTermAgrees(l: seq<Entry>, f: seq<Entry>, m: nat, i: nat)
    requires TwoLogs(l, f, m) && 0 < i <= |l| && i <= |f|
    ensures TermAt(l, i) == TermAt(f, i) <==> i <= m
  {
    if i <= m {
      assert l[i - 1] == l[..m][i - 1] == f[..m][i - 1];
    }
    if TermAt(l, i) == TermAt(f, i) {
      assert Agree(l, f, i);
    }
  }

  // ----- the two searches

  /** The largest index up to `index` whose term is at most `term`. */
  lemma {:induction false} FoundByTerm(log: seq<Entry>, index: nat, term: nat)
    requires index <= |log|
    ensures var r := FindConflictByTerm(log, index, term);
            && r.0 <= index && r.1 == Some(TermAt(log, r.0)) && TermAt(log, r.0) <= term
            && forall i :: r.0 < i <= index ==> TermAt(log, i) > term
    decreases index
  {
    if TermAt(log, index) > term {
      FoundByTerm(log, index - 1, term);
    }
  }

  /** What the follower answers to a probe at `index` that its log rejects. */
  function Hint(f: seq<Entry>, index: nat, logTerm: nat): (nat, Option<nat>) {
    FindConflictByTerm(f, Min(index, |f|), logTerm)
  }

  /** Where the leader probes next, given the rejection's hint. */
  function NextProbe(l: seq<Entry>, hint: nat, hintTerm: nat): nat {
    if hintTerm > 0 then FindConflictByTerm(l, hint, hintTerm).0 else hint
  }

  /** The follower's skip is sound: it does not go below the match point. */
  lemma HintSound(l: seq<Entry>, f: seq<Entry>, m: nat, index: nat)
    requires TwoLogs(l, f, m) && m <= index <= |l|
    ensures var (j, t) := Hint(f, index, TermAt(l, index));
            m <= j <= index && j <= |f| && t == Some(TermAt(f, j)) && TermAt(f, j) <= TermAt(l, index)
  {
    FoundByTerm(f, Min(index, |f|), TermAt(l, index));
    TermsOrdered(l, m, index);
    if m > 0 {
      SameTermAgrees(l, f, m, m);
    }
  }

  /** The leader's skip is sound as well. */
  lemma NextProbeSound(l: seq<Entry>, f: seq<Entry>, m: nat, j: nat)
    requires TwoLogs(l, f, m) && m <= j <= |f| && j <= |l|
    ensures var k := NextProbe(l, j, TermAt(f, j));
            && m <= k <= j
            && (TermAt(f, j) > 0 ==> TermAt(l, k) <= TermAt(f, j) && forall i :: k < i <= j ==> TermAt(l, i) > TermAt(f, j))
  {
    TermsOrdered(f, m, j);
    if TermAt(f, j) > 0 {
      FoundByTerm(l, j, TermAt(f, j));
      if m > 0 {
        SameTermAgrees(l, f, m, m);
      }
    } else if j > 0 {
      TermsOrdered(f, j, j);
    }
  }

  // ----- one exchange

  /** The probed index as the leader has it after a current rejection. */
  function Rejected(l: seq<Entry>, f: seq<Entry>, p: Peer): Option<Peer>
    requires p.next > 0
  {
    var (j, t) := Hint(f, p.next - 1, TermAt(l, p.next - 1));
    match t
    case None => None
    case Some(jt) => MaybeDecrTo(p, p.next - 1, NextProbe(l, j, jt))
  }

  /** A follower that has not committed past the probe rejects it exactly when the probe lies behind the
      match point, and answers with the hint. */
  lemma FollowerAnswers(l: seq<Entry>, n: Node, m: nat, index: nat, ents: seq<Entry>, msg: Msg)
    requires TwoLogs(l, n.log, m) && m <= index <= |l| && n.committed <= m
    requires msg.Append? && msg.index == index && msg.logTerm == TermAt(l, index) && Follows(msg.entries, index)
    ensures TermAt(n.log, index) == TermAt(l, index) <==> index == m
    ensures index > m ==>
              var (j, t) := Hint(n.log, index, TermAt(l, index));
              && t.Some?
              && HandleAppend(n, msg) == Ok(n, {AppendResp(n.id, msg.from, n.term, index, true, j, t.value, n.committed)})
  {
    if 0 < index <= |n.log| {
      SameTermAgrees(l, n.log, m, index);
    } else if index > |n.log| {
      TermsOrdered(l, index, index);
    }
    HintSound(l, n.log, m, index);
  }

  /** Each current rejection strictly lowers the next index, never to or below the match point, and it
      either lowers the term that is probed or the next probe succeeds. */
  lemma RejectionSound(l: seq<Entry>, f: seq<Entry>, m: nat, p: Peer)
    requires TwoLogs(l, f, m) && p.state == ProgressState.Probe && m < p.next - 1 <= |l|
    ensures Rejected(l, f, p).Some?
    ensures var p' := Rejected(l, f, p).value;
            && p'.state == ProgressState.Probe && !p'.paused && p'.matched == p.matched
            && m + 1 <= p'.next < p.next
            && (TermAt(l, p'.next - 1) < TermAt(l, p.next - 1) || p'.next - 1 == m)
  {
    var index := p.next - 1;
    HintSound(l, f, m, index);
    var j := Hint(f, index, TermAt(l, index)).0;
    NextProbeSound(l, f, m, j);
    var k := NextProbe(l, j, TermAt(f, j));
    var index' := Min(index - 1, k);
    TermsOrdered(l, index', k);
    TermsOrdered(l, k, index);
    TermsOrdered(f, j, j);
    if TermAt(l, index') == TermAt(l, index) && TermAt(f, j) > 0 {
      TermsOrdered(l, k, j);
      TermsOrdered(l, j, index);
      SameTermAgrees(l, f, m, j);
    }
  }

  // ----- the whole exchange

  /** Probing and rejecting in turn ends, exactly at the match point; the number of probes is at most
      the number of terms in the leader's log up to the first one, plus one. */
  method FindMatchPoint(l: seq<Entry>, f: seq<Entry>, ghost m: nat, p: Peer) returns (p': Peer, probes: nat)
    requires TwoLogs(l, f, m) && p.state == ProgressState.Probe && m <= p.next - 1 <= |l|
    ensures p'.next - 1 == m && p'.state == ProgressState.Probe
    ensures probes <= TermAt(l, p.next - 1) + 1
  {
    p', probes := p, 0;
    while TermAt(f, p'.next - 1) != TermAt(l, p'.next - 1)
      invariant p'.state == ProgressState.Probe && m <= p'.next - 1 <= |l|
      invariant probes + TermAt(l, p'.next - 1) <= TermAt(l, p.next - 1) || (p'.next - 1 == m && probes <= TermAt(l, p.next - 1) + 1)
      decreases p'.next
    {
      ProbeDiffers(l, f, m, p'.next - 1);
      RejectionSound(l, f, m, p');
      p' := Rejected(l, f, p').value;
      probes := probes + 1;
    }
    ProbeDiffers(l, f, m, p'.next - 1);
  }

  lemma ProbeDiffers(l: seq<Entry>, f: seq<Entry>, m: nat, index: nat)
    requires TwoLogs(l, f, m) && m <= index <= |l|
    ensures TermAt(f, index) == TermAt(l, index) <==> index == m
  {
    if 0 < index <= |f| {
      SameTermAgrees(l, f, m, index);
    } else if index > |f| {
      TermsOrdered(l, index, index);
    }
  }

  // ----- what is sent is what the cluster model allows

  /** Every append that the flow control sends is one that the cluster model lets the leader send. */
  lemma SendIsAllowed(g: Group, n: Node, to: Id, src: Source, p: Peer, allowEmpty: bool)
    requires n.role == Leader && to in n.matched && to != n.id
    requires SourceOk(src) && src.log == LogModel.Log(0, 0, n.log)
    requires PeerOk(p, |n.log|) && p.matched == n.matched[to]
    ensures var r := Flow.MaybeSendAppend(src, p, allowEmpty);
            r.Went? && (r.sent.Entries? ==>
              LeaderMay(g, n, Append(n.id, to, n.term, r.sent.index, r.sent.term, r.sent.ents, n.committed)))
  {
    SendKeepsOk(src, p, allowEmpty);
    hide Flow.MaybeSendAppend, PeerOk;
    assert p.next <= Max(|n.log|, p.matched) + 1 && p.next >= 1 by {
      PeerBounds(p, |n.log|);
    }
  }

  lemma PeerBounds(p: Peer, last: nat)
    requires PeerOk(p, last)
    ensures 1 <= p.next <= Max(last, p.matched) + 1
  {
  }
}
