/** The probing argument applies to any two logs of a cluster run. */
module ProbeInRuns {
  import opened Types
  import opened RaftNode
  import opened History
  import opened Growth
  import opened Invariant
  import opened Moves
  import opened Cluster
  import opened Safety
  import P = ProbeRuns

  ghost function MatchPoint(a: seq<Entry>, b: seq<Entry>, k: nat): (m: nat)
    requires k <= |a| && k <= |b|
    ensures P.Agree(a, b, m) && m <= k && forall i: nat :: P.Agree(a, b, i) && i <= k ==> i <= m
  {
    if k == 0 || P.Agree(a, b, k) then k else MatchPoint(a, b, k - 1)
  }

  lemma LogTerms(g: Group, run: seq<State>, events: seq<Event>, j: nat, a: Id)
    requires GroupOk(g) && IsRun(g, run, events) && j < |run| && a in run[j].nodes
    ensures P.TermsGrow(run[j].nodes[a].log)
  {
    hide Inv, Next, LogOk;
    var hs := RunExplained(g, run, events);
    NodeLogOk(g, hs[j], run[j], a);
    InvHist(g, hs[j], run[j]);
    var log := run[j].nodes[a].log;
    forall i | 0 <= i < |log| ensures log[i].term > 0 {
      TermPositive(g, hs[j], log, i);
    }
    forall i, k | 0 <= i < k < |log| ensures log[i].term <= log[k].term {
      History.TermsGrow(g, hs[j], log, i, k);
    }
  }

  lemma InvHist(g: Group, h: Hist, s: State)
    requires Inv(g, h, s)
    ensures LeadsOk(g, h) && RunsOk(g, h)
  {
    hide NodeOk, MsgOk;
  }

  lemma TermPositive(g: Group, h: Hist, log: seq<Entry>, i: nat)
    requires LeadsOk(g, h) && LogOk(h, log) && i < |log|
    ensures log[i].term > 0
  {
    assert EntryOk(h, log, i);
    assert LeadOk(g, h, log[i].term);
  }

  /** In every reachable state, for a leader whose term nobody has passed and any other node: both logs
      are as the probing argument needs them, and the other node has committed nothing past the match
      point. So probing ends at the match point, and no probe is answered from the commit index. */
  lemma ProbingApplies(g: Group, run: seq<State>, events: seq<Event>, j: nat, leader: Id, other: Id)
    requires GroupOk(g) && IsRun(g, run, events) && j < |run|
    requires leader in run[j].nodes && other in run[j].nodes && run[j].nodes[leader].role == Leader
    requires forall v :: v in run[j].nodes ==> run[j].nodes[v].term <= run[j].nodes[leader].term
    ensures exists m :: P.TwoLogs(run[j].nodes[leader].log, run[j].nodes[other].log, m) && run[j].nodes[other].committed <= m
  {
    hide Next, P.TermsGrow;
    var l, f := run[j].nodes[leader].log, run[j].nodes[other].log;
    LogTerms(g, run, events, j, leader);
    LogTerms(g, run, events, j, other);
    forall i | 0 < i <= |l| && i <= |f| && l[i - 1].term == f[i - 1].term
      ensures l[..i] == f[..i]
    {
      LogMatchingInRun(g, run, events, j, j, leader, other, i);
    }
    CommittedInLeader(g, run, events, j, leader, other);
    var m := MatchPoint(l, f, Min(|l|, |f|));
    var c := run[j].nodes[other].committed;
    assert P.Agree(l, f, c);
    assert P.TwoLogs(l, f, m);
  }

  lemma CommittedInLeader(g: Group, run: seq<State>, events: seq<Event>, j: nat, leader: Id, other: Id)
    requires GroupOk(g) && IsRun(g, run, events) && j < |run|
    requires leader in run[j].nodes && other in run[j].nodes && run[j].nodes[leader].role == Leader
    requires forall v :: v in run[j].nodes ==> run[j].nodes[v].term <= run[j].nodes[leader].term
    ensures var c := run[j].nodes[other].committed;
            c <= |run[j].nodes[other].log| && c <= |run[j].nodes[leader].log|
            && run[j].nodes[other].log[..c] == run[j].nodes[leader].log[..c]
  {
    hide Inv, HistOk, Certified, Next;
    var hs := RunExplained(g, run, events);
    NodeCertified(g, hs[j], run[j], other);
    LeaderRecorded(g, hs[j], run[j], leader);
    var x, y := run[j].nodes[other], run[j].nodes[leader];
    if x.committed > 0 {
      var t := CertifierPast(g, hs[j], run[j], other);
      LeaderHoldsCertified(g, hs[j], x.log, x.committed, x.term, t, y.term);
    }
  }
}
