/** A follower takes over its leader's entries, and commits and acknowledges what it may. */
module AppendHandled {
  import opened Types
  import opened Quorum
  import opened ReadQueue
  import opened RaftNode
  import opened History
  import opened Growth
  import opened Invariant
  import opened Moves
  import opened LogMoves
  import opened Handlers

  // ----- finding the first conflict

  /** The first conflicting index, or zero if the log holds all the entries. */
  lemma {:induction false} FindConflictFirst(log: seq<Entry>, ents: seq<Entry>, index: nat)
    requires Follows(ents, index)
    ensures var ci := FindConflict(log, ents);
            if ci == 0 then forall k :: 0 <= k < |ents| ==> TermAt(log, index + 1 + k) == ents[k].term
            else
              && index < ci <= index + |ents|
              && TermAt(log, ci) != ents[ci - index - 1].term
              && forall k :: 0 <= k < ci - index - 1 ==> TermAt(log, index + 1 + k) == ents[k].term
    decreases |ents|
  {
    if ents != [] && TermAt(log, ents[0].index) == ents[0].term {
      FindConflictFirst(log, ents[1..], index + 1);
      var ci := FindConflict(log, ents[1..]);
      forall k | 0 <= k < |ents| && (ci == 0 || k < ci - index - 1)
        ensures TermAt(log, index + 1 + k) == ents[k].term
      {
        if k > 0 {
          assert ents[k] == ents[1..][k - 1];
        }
      }
    }
  }

  /** The leader's log `l` as an append message and the receiving log `log` see it. */
  ghost predicate Anchored(h: Hist, t: nat, log: seq<Entry>, index: nat, ents: seq<Entry>) {
    && t in h.lead
    && LogOk(h, log)
    && LogOk(h, h.lead[t].log)
    && index <= |log| && index <= |h.lead[t].log|
    && log[..index] <= h.lead[t].log
    && ents <= h.lead[t].log[index..]
    && Follows(ents, index)
  }

  lemma EntryOfLeader(h: Hist, t: nat, log: seq<Entry>, index: nat, ents: seq<Entry>, k: nat)
    requires Anchored(h, t, log, index, ents) && k < |ents|
    ensures index + k < |h.lead[t].log| && ents[k] == h.lead[t].log[index + k]
  {
    assert ents[k] == h.lead[t].log[index..][k];
  }

  /** As long as the terms agree, the logs agree. */
  lemma TermsAgreeLogsAgree(h: Hist, t: nat, log: seq<Entry>, index: nat, ents: seq<Entry>, k: nat)
    requires Anchored(h, t, log, index, ents) && k <= |ents|
    requires forall i :: 0 <= i < k ==> TermAt(log, index + 1 + i) == ents[i].term
    ensures index + k <= |log| && index + k <= |h.lead[t].log|
    ensures log[..index + k] <= h.lead[t].log
  {
    if k > 0 {
      EntryOfLeader(h, t, log, index, ents, k - 1);
      assert TermAt(log, index + 1 + (k - 1)) == ents[k - 1].term;
      LogMatching(h, log, h.lead[t].log, index + k, ents[k - 1].term);
    }
  }

  /** The log after replacing everything from the conflict on is a prefix of the leader's. */
  lemma ReplacedLog(h: Hist, t: nat, log: seq<Entry>, index: nat, ents: seq<Entry>, ci: nat)
    requires Anchored(h, t, log, index, ents)
    requires index < ci <= index + |ents| && ci - 1 <= |log|
    requires log[..ci - 1] <= h.lead[t].log
    ensures index + |ents| <= |h.lead[t].log|
    ensures log[..ci - 1] + ents[ci - index - 1..] == h.lead[t].log[..index + |ents|]
  {
    var l := h.lead[t].log;
    var r := log[..ci - 1] + ents[ci - index - 1..];
    EntryOfLeader(h, t, log, index, ents, |ents| - 1);
    forall i | 0 <= i < index + |ents|
      ensures r[i] == l[i]
    {
      if i < ci - 1 {
        assert r[i] == log[..ci - 1][i];
      } else {
        EntryOfLeader(h, t, log, index, ents, i - index);
        assert r[i] == ents[i - index];
      }
    }
  }

  /** The message's anchor matches the follower's log exactly when the logs agree up to it. */
  lemma AnchorMatches(g: Group, h: Hist, n: Node, m: Msg)
    requires LeadsOk(g, h) && NodeOk(g, h, n)
    requires m.Append? && AppendOk(g, h, m) && m.term == n.term && m.to == n.id
    requires m.index >= n.committed && TermAt(n.log, m.index) == m.logTerm
    ensures Anchored(h, n.term, n.log, m.index, m.entries)
  {
    var l := h.lead[m.term].log;
    assert LeadOk(g, h, m.term);
    NodeFacts(g, h, n);
    if m.index > 0 {
      AnchorTermReal(g, h, n, m);
      LogMatching(h, n.log, l, m.index, m.logTerm);
    }
  }

  lemma TermsPositive(g: Group, h: Hist, log: seq<Entry>, i: nat)
    requires LeadsOk(g, h) && LogOk(h, log) && 0 < i <= |log|
    ensures TermAt(log, i) > 0
  {
    assert EntryOk(h, log, i - 1);
    assert LeadOk(g, h, log[i - 1].term);
  }

  lemma AnchorTermReal(g: Group, h: Hist, n: Node, m: Msg)
    requires LeadsOk(g, h) && NodeOk(g, h, n)
    requires m.Append? && AppendOk(g, h, m) && m.term == n.term && m.to == n.id
    requires m.index > 0 && m.index >= n.committed && TermAt(n.log, m.index) == m.logTerm
    ensures m.index <= |h.lead[m.term].log| && m.logTerm == TermAt(h.lead[m.term].log, m.index) > 0
    ensures m.index <= |n.log|
  {
    var l := h.lead[m.term].log;
    LeadLogOk(g, h, m.term);
    NodeFacts(g, h, n);
    if m.index <= |n.log| {
      TermsPositive(g, h, n.log, m.index);
    }
    if m.index <= |l| {
      TermsPositive(g, h, l, m.index);
    }
    assert ClaimHeld(h, n);
  }

  // ----- the handler

  /** After the entries are in place, the follower agrees with its leader up to the last of them. */
  lemma AppendFromMoved(g: Group, h: Hist, n: Node, m: Msg)
    requires Ready(g, h, n) && n.role == Follower
    requires m.Append? && Anchored(h, n.term, n.log, m.index, m.entries)
    ensures var r := AppendFrom(n, m.index, m.entries);
            var last := m.index + |m.entries|;
            r.Ok? ==>
              && Moved(g, h, n, h, r.node)
              && r.node.term == n.term && r.node.role == Follower && r.node.committed == n.committed
              && last <= |r.node.log| && r.node.log[..last] <= h.lead[n.term].log
  {
    hide HistOk, NodeOk, LogOk;
    var ci := FindConflict(n.log, m.entries);
    FindConflictFirst(n.log, m.entries, m.index);
    if ci == 0 {
      TermsAgreeLogsAgree(h, n.term, n.log, m.index, m.entries, |m.entries|);
      StayMoved(g, h, n);
    } else if ci > n.committed {
      ReplaceMoved(g, h, n, m, ci);
    }
  }

  lemma ReplaceMoved(g: Group, h: Hist, n: Node, m: Msg, ci: nat)
    requires Ready(g, h, n) && n.role == Follower
    requires m.Append? && Follows(m.entries, m.index) && Anchored(h, n.term, n.log, m.index, m.entries)
    requires n.term in h.lead && ci == FindConflict(n.log, m.entries) && ci > n.committed
    requires m.index < ci <= m.index + |m.entries| && TermAt(n.log, ci) != m.entries[ci - m.index - 1].term
    requires forall k :: 0 <= k < ci - m.index - 1 ==> TermAt(n.log, m.index + 1 + k) == m.entries[k].term
    ensures var r := AppendFrom(n, m.index, m.entries);
            var last := m.index + |m.entries|;
            && r.Ok?
            && Moved(g, h, n, h, r.node)
            && r.node.term == n.term && r.node.role == Follower && r.node.committed == n.committed
            && last <= |r.node.log| && r.node.log[..last] <= h.lead[n.term].log
  {
    hide HistOk, NodeOk, LogOk, Moved, TakesOver, Anchored, Follows, AppendFrom, FindConflict;
    var log, persisted := Replacement(g, h, n, m, ci);
    TakeOverMove(g, h, n, ci, log, persisted);
  }

  /** The log of the follower after replacing its entries from the conflict on. */
  lemma Replacement(g: Group, h: Hist, n: Node, m: Msg, ci: nat) returns (log: seq<Entry>, persisted: nat)
    requires Ready(g, h, n)
    requires m.Append? && Follows(m.entries, m.index) && Anchored(h, n.term, n.log, m.index, m.entries)
    requires n.term in h.lead && ci == FindConflict(n.log, m.entries) && ci > n.committed
    requires m.index < ci <= m.index + |m.entries| && TermAt(n.log, ci) != m.entries[ci - m.index - 1].term
    requires forall k :: 0 <= k < ci - m.index - 1 ==> TermAt(n.log, m.index + 1 + k) == m.entries[k].term
    ensures AppendFrom(n, m.index, m.entries) == Ok(n.(log := log, persisted := persisted), {})
    ensures TakesOver(h, n, ci, log) && persisted <= |log|
    ensures |log| == m.index + |m.entries| && log[..|log|] <= h.lead[n.term].log
  {
    hide HistOk, NodeOk, LogOk, Moved, TakesOver, Anchored, Follows, AppendFrom, FindConflict;
    var l := h.lead[n.term].log;
    assert ci - 1 <= |n.log| && n.log[..ci - 1] <= l by {
      TermsAgreeLogsAgree(h, n.term, n.log, m.index, m.entries, ci - m.index - 1);
    }
    log := n.log[..ci - 1] + m.entries[ci - m.index - 1..];
    persisted := if n.persisted > ci - 1 then ci - 1 else n.persisted;
    assert m.index + |m.entries| <= |l| && log == l[..m.index + |m.entries|] by {
      ReplacedLog(h, n.term, n.log, m.index, m.entries, ci);
    }
    AppendFromReplaces(n, m.index, m.entries);
    ReplaceTakesOver(h, n, m, ci);
  }

  lemma AppendFromReplaces(n: Node, index: nat, ents: seq<Entry>)
    requires Follows(ents, index)
    ensures var ci := FindConflict(n.log, ents);
            n.committed < ci && index < ci <= index + |ents| && ci - 1 <= |n.log| ==>
              AppendFrom(n, index, ents) ==
              Ok(n.(log := n.log[..ci - 1] + ents[ci - index - 1..],
                    persisted := if n.persisted > ci - 1 then ci - 1 else n.persisted), {})
  {
    hide FindConflict, Follows;
  }

  lemma ReplaceTakesOver(h: Hist, n: Node, m: Msg, ci: nat)
    requires m.Append? && Anchored(h, n.term, n.log, m.index, m.entries)
    requires m.index < ci <= m.index + |m.entries| && TermAt(n.log, ci) != m.entries[ci - m.index - 1].term
    requires n.committed < ci <= |n.log| + 1 && m.index + |m.entries| <= |h.lead[n.term].log|
    requires n.log[..ci - 1] + m.entries[ci - m.index - 1..] == h.lead[n.term].log[..m.index + |m.entries|]
    ensures TakesOver(h, n, ci, n.log[..ci - 1] + m.entries[ci - m.index - 1..])
  {
    var log := n.log[..ci - 1] + m.entries[ci - m.index - 1..];
    assert log[ci - 1] == m.entries[ci - m.index - 1];
    assert log[..ci - 1] == n.log[..ci - 1];
  }

  lemma AppendCertified(g: Group, h: Hist, log: seq<Entry>, l: seq<Entry>, last: nat, c: nat, t: nat)
    requires last <= |log| && log[..last] <= l && Certified(g, h, l, c, t)
    ensures Certified(g, h, log, Min(c, last), t)
  {
    var k := Min(c, last);
    if k > 0 {
      var t2 :| CertifiedBy(g, h, l, c, t, t2);
      TakeLess(log, l, last, k);
      TakeLess(l, h.lead[t2].log, c, k);
      assert CertifiedBy(g, h, log, k, t, t2);
    }
  }

  lemma CommitToMoved(g: Group, h: Hist, n: Node, to: nat)
    requires Ready(g, h, n) && n.role != Leader
    requires to > n.committed ==> Certified(g, h, n.log, to, n.term)
    ensures CommitTo(n, to).Ok? && Moved(g, h, n, h, CommitTo(n, to).node)
  {
    hide HistOk, NodeOk;
    if n.committed < to {
      CommitMove(g, h, n, to);
    } else {
      StayMoved(g, h, n);
    }
  }

  /** The accepted case: entries, commit index, acknowledgement. */
  lemma AcceptHandled(g: Group, h: Hist, n: Node, m: Msg) returns (h': Hist)
    requires Ready(g, h, n) && n.role == Follower
    requires m.Append? && AppendOk(g, h, m) && m.term == n.term && m.to == n.id
    requires m.index >= n.committed && TermAt(n.log, m.index) == m.logTerm
    ensures Handled(g, h, n, h', HandleAppend(n, m))
    ensures AppendFrom(n, m.index, m.entries).Ok? ==> HandleAppend(n, m).Ok?
  {
    hide HistOk, NodeOk, Anchored, LeadsOk, AppendFrom, Certified, MayClaim, LogOk;
    HistLeads(g, h);
    AnchorMatches(g, h, n, m);
    LeadLogOk(g, h, n.term);
    AppendFromMoved(g, h, n, m);
    h' := h;
    var r := AppendFrom(n, m.index, m.entries);
    if r.Ok? {
      var last := m.index + |m.entries|;
      var n1 := r.node;
      AppendCertified(g, h, n1.log, h.lead[n.term].log, last, m.commit, n.term);
      CommitToMoved(g, h, n1, Min(m.commit, last));
      var n2 := CommitTo(n1, Min(m.commit, last)).node;
      MatchingMayClaim(g, h, n2, last);
      h' := ClaimMove(g, h, n2, last);
      MovedTrans(g, h, n, h, n1, h, n2);
      MovedTrans(g, h, n, h, n2, h', n2);
    }
  }

  lemma BehindHandled(g: Group, h: Hist, n: Node, m: Msg) returns (h': Hist)
    requires Ready(g, h, n) && n.role == Follower
    requires m.Append? && AppendOk(g, h, m) && m.term == n.term && m.index < n.committed
    ensures Handled(g, h, n, h', HandleAppend(n, m)) && HandleAppend(n, m).Ok?
  {
    hide HistOk, NodeOk, LeadsOk, MayClaim, LogOk, Certified;
    HistLeads(g, h);
    NodeFacts(g, h, n);
    LeadLogOk(g, h, n.term);
    CommittedMayClaim(g, h, n);
    h' := ClaimMove(g, h, n, n.committed);
  }

  lemma {:induction false} ConflictByTermFound(log: seq<Entry>, index: nat, term: nat)
    requires index <= |log|
    ensures FindConflictByTerm(log, index, term).1.Some?
    decreases index
  {
    if TermAt(log, index) > term {
      ConflictByTermFound(log, index - 1, term);
    }
  }

  lemma AppendMsgHandled(g: Group, h: Hist, n: Node, m: Msg) returns (h': Hist)
    requires Ready(g, h, n) && n.role == Follower
    requires m.Append? && AppendOk(g, h, m) && m.term == n.term && m.to == n.id
    ensures Handled(g, h, n, h', HandleAppend(n, m))
  {
    hide HistOk, NodeOk, LeadsOk, AppendFrom, FindConflictByTerm, LogOk;
    HistLeads(g, h);
    LeadLogOk(g, h, n.term);
    if m.index < n.committed {
      h' := BehindHandled(g, h, n, m);
    } else if TermAt(n.log, m.index) != m.logTerm {
      h' := h;
      StayMoved(g, h, n);
    } else {
      h' := AcceptHandled(g, h, n, m);
    }
  }

  // ----- heartbeats

  /** A heartbeat never asks a node to commit past its log. */
  lemma HeartbeatCommit(g: Group, h: Hist, n: Node, m: Msg)
    requires NodeOk(g, h, n) && m.Heartbeat? && MsgOk(g, h, m) && m.term == n.term && m.to == n.id
    requires m.commit > n.committed
    ensures Certified(g, h, n.log, m.commit, n.term)
  {
    assert ClaimHeld(h, n);
    var k := Claim(h, n.term, n.id);
    var l := h.lead[n.term].log;
    TakeLess(n.log, l, k, m.commit);
    var t :| CertifiedBy(g, h, l, m.commit, n.term, t);
    assert CertifiedBy(g, h, n.log, m.commit, n.term, t);
  }

  lemma NotMoved(g: Group, h: Hist, c: Ctx, t: nat, v: Id)
    requires AsksOk(g, h) && (c, t) in h.asked && Epoch(h, v) <= t
    ensures v !in h.asked[(c, t)].moved
  {
    assert AskOk(g, h, c, t);
  }

  lemma HeartbeatHandled(g: Group, h: Hist, n: Node, m: Msg)
    requires Ready(g, h, n) && n.role == Follower
    requires m.Heartbeat? && MsgOk(g, h, m) && m.term == n.term && m.to == n.id
    ensures Handled(g, h, n, h, HandleHeartbeat(n, m)) && HandleHeartbeat(n, m).Ok?
  {
    hide HistOk, NodeOk, AsksOk, LeadsOk, LogOk, Certified;
    HistAsks(g, h);
    NodeFacts(g, h, n);
    LeadLogOk(g, h, n.term);
    if m.commit > n.committed {
      HeartbeatCommit(g, h, n, m);
    }
    CommitToMoved(g, h, n, m.commit);
    if m.ctx != [] {
      NotMoved(g, h, m.ctx, m.term, n.id);
    }
  }
}
