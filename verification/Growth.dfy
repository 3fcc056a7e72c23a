/** A history only grows, and what it justified once stays justified. */
module Growth {
  import opened Types
  import opened Quorum
  import opened ReadQueue
  import opened RaftNode
  import opened History

  ghost predicate EpochGrows(h: Hist, h': Hist) {
    forall v :: Epoch(h, v) <= Epoch(h', v)
  }

  /** Leaders only append entries of their own term. */
  ghost predicate LeadGrowsAt(h: Hist, h': Hist, t: nat)
    requires t in h.lead
  {
    && t in h'.lead
    && h'.lead[t].id == h.lead[t].id
    && h'.lead[t].quorum == h.lead[t].quorum
    && h.lead[t].log <= h'.lead[t].log
    && forall i :: |h.lead[t].log| <= i < |h'.lead[t].log| ==>
         h'.lead[t].log[i].term == t && h'.lead[t].log[i].index == i + 1
  }

  ghost predicate LeadGrows(h: Hist, h': Hist) {
    forall t :: t in h.lead ==> LeadGrowsAt(h, h', t)
  }

  ghost predicate RunsKeep(h: Hist, h': Hist) {
    forall k :: k in h.runs ==> k in h'.runs && h'.runs[k] == h.runs[k]
  }

  ghost predicate VotesKeep(h: Hist, h': Hist) {
    forall k :: k in h.votes ==> k in h'.votes && h'.votes[k] == h.votes[k]
  }

  /** Claims to the leader of a term are only made by nodes still in that term. */
  ghost predicate ClaimsGrow(h: Hist, h': Hist) {
    && (forall t, v :: Claim(h, t, v) <= Claim(h', t, v))
    && (forall t, v :: Epoch(h, v) > t ==> Claim(h, t, v) == Claim(h', t, v))
  }

  ghost predicate CmtGrows(h: Hist, h': Hist) {
    forall t :: t in h.cmt ==> t in h'.cmt && h.cmt[t] <= h'.cmt[t]
  }

  ghost predicate AsksKeep(h: Hist, h': Hist) {
    && (forall k :: k in h.asked ==> k in h'.asked && h'.asked[k] == h.asked[k])
    && h.reused <= h'.reused
  }

  ghost predicate Grows(h: Hist, h': Hist) {
    && EpochGrows(h, h')
    && LeadGrows(h, h')
    && RunsKeep(h, h')
    && VotesKeep(h, h')
    && ClaimsGrow(h, h')
    && CmtGrows(h, h')
    && AsksKeep(h, h')
  }

  lemma LeadGrowsTrans(a: Hist, b: Hist, c: Hist)
    requires LeadGrows(a, b) && LeadGrows(b, c)
    ensures LeadGrows(a, c)
  {
    forall t | t in a.lead
      ensures LeadGrowsAt(a, c, t)
    {
      assert LeadGrowsAt(a, b, t) && LeadGrowsAt(b, c, t);
      var x, y, z := a.lead[t].log, b.lead[t].log, c.lead[t].log;
      forall i | |x| <= i < |z|
        ensures z[i].term == t && z[i].index == i + 1
      {
        if i < |y| {
          assert z[i] == y[i];
        }
      }
    }
  }

  lemma GrowsTrans(a: Hist, b: Hist, c: Hist)
    requires Grows(a, b) && Grows(b, c)
    ensures Grows(a, c)
  {
    LeadGrowsTrans(a, b, c);
    forall v
      ensures Epoch(a, v) <= Epoch(c, v)
    {
      assert Epoch(a, v) <= Epoch(b, v) <= Epoch(c, v);
    }
    forall t, v
      ensures Claim(a, t, v) <= Claim(c, t, v)
      ensures Epoch(a, v) > t ==> Claim(a, t, v) == Claim(c, t, v)
    {
      assert Claim(a, t, v) <= Claim(b, t, v) <= Claim(c, t, v);
      assert Epoch(a, v) <= Epoch(b, v);
    }
  }

  lemma GrowsRefl(h: Hist)
    ensures Grows(h, h)
  {
  }

  // ----- logs

  lemma LogOkGrows(h: Hist, h': Hist, log: seq<Entry>)
    requires LeadGrows(h, h') && LogOk(h, log)
    ensures LogOk(h', log)
  {
    forall i | 0 <= i < |log|
      ensures EntryOk(h', log, i)
    {
      assert EntryOk(h, log, i);
      assert LeadGrowsAt(h, h', log[i].term);
    }
  }

  lemma LacksGrows(h: Hist, h': Hist, t2: nat, j: nat, t: nat)
    requires LeadGrows(h, h') && t != t2 && Lacks(h, t2, j, t)
    ensures Lacks(h', t2, j, t)
  {
    assert LeadGrowsAt(h, h', t2);
  }

  // ----- claims

  lemma BlockedGrows(g: Group, h: Hist, h': Hist, t: nat, j: nat)
    requires EpochGrows(h, h') && ClaimsGrow(h, h')
    requires Blocked(g, h, t, j)
    ensures Blocked(g, h', t, j)
  {
    var s :| IsQuorum(g.cfg, s) && BlockedBy(h, t, j, s);
    forall u | u in s
      ensures Epoch(h', u) > t && Claim(h', t, u) < j
    {
      assert Epoch(h, u) > t && Claim(h, t, u) < j;
      assert Epoch(h, u) <= Epoch(h', u);
    }
    assert BlockedBy(h', t, j, s);
  }

  lemma KeptGrows(g: Group, h: Hist, h': Hist, log: seq<Entry>, t: nat, j: nat, lim: nat)
    requires Grows(h, h') && Kept(g, h, log, t, j, lim)
    ensures Kept(g, h', log, t, j, lim)
  {
    if Blocked(g, h, t, j) {
      BlockedGrows(g, h, h', t, j);
    } else if !Has(log, j, t) {
      var t2 :| t < t2 < lim && Lacks(h, t2, j, t);
      LacksGrows(h, h', t2, j, t);
    }
  }

  lemma NoLeadNoClaim(g: Group, h: Hist, t: nat, v: Id)
    requires ClaimsOk(g, h) && Claim(h, t, v) > 0
    ensures t in h.lead && t <= Epoch(h, v)
    ensures forall j :: |h.lead[t].log| < j <= Claim(h, t, v) ==> Blocked(g, h, t, j)
  {
    assert ClaimOk(g, h, t, v);
  }

  lemma RemembersGrows(g: Group, h: Hist, h': Hist, v: Id, log: seq<Entry>, lim: nat)
    requires Grows(h, h') && ClaimsOk(g, h)
    requires Remembers(g, h, v, log, lim)
    requires forall t: nat :: t < lim ==> Claim(h', t, v) == Claim(h, t, v)
    ensures Remembers(g, h', v, log, lim)
  {
    forall t, j | t in h'.lead && t < lim && 0 < j <= Claim(h', t, v) && Has(h'.lead[t].log, j, t)
      ensures Kept(g, h', log, t, j, lim)
    {
      NoLeadNoClaim(g, h, t, v);
      assert LeadGrowsAt(h, h', t);
      if j <= |h.lead[t].log| {
        assert Has(h.lead[t].log, j, t);
        KeptGrows(g, h, h', log, t, j, lim);
      } else {
        BlockedGrows(g, h, h', t, j);
      }
    }
  }

  lemma ChosenGrows(g: Group, h: Hist, h': Hist, t: nat, j: nat)
    requires Grows(h, h') && Chosen(g, h, t, j)
    ensures Chosen(g, h', t, j)
  {
    assert LeadGrowsAt(h, h', t);
    var s :| IsQuorum(g.cfg, s) && ClaimedBy(h, t, j, s);
    forall u | u in s
      ensures Claim(h', t, u) >= j
    {
      assert Claim(h, t, u) <= Claim(h', t, u);
    }
    assert ClaimedBy(h', t, j, s);
  }

  lemma CertifiedGrows(g: Group, h: Hist, h': Hist, log: seq<Entry>, c: nat, lim: nat, lim': nat)
    requires LeadGrows(h, h') && CmtGrows(h, h') && lim <= lim'
    requires Certified(g, h, log, c, lim)
    ensures Certified(g, h', log, c, lim')
  {
    if c > 0 {
      var t :| CertifiedBy(g, h, log, c, lim, t);
      assert LeadGrowsAt(h, h', t);
      assert CertifiedBy(g, h', log, c, lim', t);
    }
  }

  // ----- the parts of the invariant

  lemma LeadOkGrows(g: Group, h: Hist, h': Hist, t: nat)
    requires Grows(h, h') && t in h.lead && LeadOk(g, h, t)
    ensures t in h'.lead && LeadOk(g, h', t)
  {
    assert LeadGrowsAt(h, h', t);
    var l, l' := h.lead[t], h'.lead[t];
    LogOkGrows(h, h', l.log);
    forall i | 0 <= i < |l'.log|
      ensures EntryOk(h', l'.log, i)
    {
      if i < |l.log| {
        assert EntryOk(h', l.log, i);
        assert l'.log[i] == l.log[i];
        assert l'.log[..i + 1] == l.log[..i + 1];
      }
    }
    var r := h.runs[(t, l.id)];
    forall i | |r| <= i < |l'.log|
      ensures l'.log[i].term == t
    {
      if i < |l.log| {
        assert l'.log[i] == l.log[i];
      }
    }
  }

  lemma RunOkGrows(g: Group, h: Hist, h': Hist, t: nat, c: Id)
    requires Grows(h, h') && (t, c) in h.runs && RunOk(g, h, t, c)
    ensures (t, c) in h'.runs && RunOk(g, h', t, c)
  {
    LogOkGrows(h, h', h.runs[(t, c)]);
    assert Epoch(h, c) <= Epoch(h', c);
  }

  lemma VoteOkGrows(g: Group, h: Hist, h': Hist, t: nat, v: Id)
    requires Grows(h, h') && ClaimsOk(g, h)
    requires (t, v) in h.votes && VoteOk(g, h, t, v)
    ensures (t, v) in h'.votes && VoteOk(g, h', t, v)
  {
    var b := h.votes[(t, v)];
    assert Epoch(h, v) <= Epoch(h', v);
    LogOkGrows(h, h', b.log);
    if t !in h'.lead || v in h'.lead[t].quorum {
      if t in h.lead {
        assert LeadGrowsAt(h, h', t);
      }
      RemembersGrows(g, h, h', v, b.log, t);
    }
  }

  lemma ClaimOkGrows(g: Group, h: Hist, h': Hist, t: nat, v: Id)
    requires Grows(h, h') && ClaimsOk(g, h)
    requires (t, v) in h'.claims && 0 < Claim(h', t, v) == Claim(h, t, v)
    ensures ClaimOk(g, h', t, v)
  {
    NoLeadNoClaim(g, h, t, v);
    assert LeadGrowsAt(h, h', t);
    assert Epoch(h, v) <= Epoch(h', v);
    forall j | |h'.lead[t].log| < j <= h'.claims[(t, v)]
      ensures Blocked(g, h', t, j)
    {
      BlockedGrows(g, h, h', t, j);
    }
  }

  lemma CommittedAtGrows(h: Hist, h': Hist, t: nat, j: nat)
    requires LeadGrows(h, h') && CmtGrows(h, h') && CommittedAt(h, t, j)
    ensures CommittedAt(h', t, j)
  {
    assert LeadGrowsAt(h, h', t);
  }

  lemma AskOkGrows(g: Group, h: Hist, h': Hist, c: Ctx, t: nat)
    requires Grows(h, h') && (c, t) in h.asked && AskOk(g, h, c, t)
    ensures (c, t) in h'.asked && AskOk(g, h', c, t)
  {
    var r := h.asked[(c, t)];
    CommittedAtGrows(h, h', t, r.index);
    forall v | v in r.moved
      ensures Epoch(h', v) > t
    {
      assert Epoch(h, v) <= Epoch(h', v);
    }
  }

  /** What one step of node `id` may do to the history: it grows, only the node's own part and the
      terms the node leads change. */
  ghost predicate Move(id: Id, h: Hist, h': Hist) {
    && Grows(h, h')
    && (forall v :: v != id ==> Epoch(h', v) == Epoch(h, v))
    && (forall t, v :: v != id ==> Claim(h', t, v) == Claim(h, t, v))
    && (forall t, v :: v != id && (t, v) in h'.votes ==> (t, v) in h.votes)
    && (forall t :: t in h'.lead && h'.lead[t].id != id ==> t in h.lead && h'.lead[t] == h.lead[t])
    && (forall t :: t in h'.cmt && t in h'.lead && h'.lead[t].id != id ==> t in h.cmt && h'.cmt[t] == h.cmt[t])
  }

  lemma MoveRefl(id: Id, h: Hist)
    ensures Move(id, h, h)
  {
  }

  lemma MoveTrans(id: Id, a: Hist, b: Hist, c: Hist)
    requires Move(id, a, b) && Move(id, b, c)
    ensures Move(id, a, c)
  {
    GrowsTrans(a, b, c);
    forall t, v | v != id
      ensures Claim(c, t, v) == Claim(a, t, v)
    {
      assert Claim(c, t, v) == Claim(b, t, v);
    }
    forall v | v != id
      ensures Epoch(c, v) == Epoch(a, v)
    {
      assert Epoch(c, v) == Epoch(b, v);
    }
  }

  /** After a move the invariant holds again if it holds of what is new. */
  lemma HistOkGrows(g: Group, h: Hist, h': Hist)
    requires HistOk(g, h) && Grows(h, h')
    requires forall t :: t in h'.lead && t !in h.lead ==> LeadOk(g, h', t)
    requires forall t, c :: (t, c) in h'.runs && (t, c) !in h.runs ==> RunOk(g, h', t, c)
    requires forall t, v :: (t, v) in h'.votes && (t, v) !in h.votes ==> VoteOk(g, h', t, v)
    requires forall t, v :: (t, v) in h'.claims && !((t, v) in h.claims && h.claims[(t, v)] == h'.claims[(t, v)] > 0) ==> ClaimOk(g, h', t, v)
    requires forall t :: t in h'.cmt && !(t in h.cmt && h.cmt[t] == h'.cmt[t]) ==> CmtOk(g, h', t)
    requires forall c, t :: (c, t) in h'.asked && (c, t) !in h.asked ==> AskOk(g, h', c, t)
    requires AsksOrdered(h')
    ensures HistOk(g, h')
  {
    forall t | t in h'.lead ensures LeadOk(g, h', t) {
      if t in h.lead { LeadOkGrows(g, h, h', t); }
    }
    forall t, c | (t, c) in h'.runs ensures RunOk(g, h', t, c) {
      if (t, c) in h.runs { RunOkGrows(g, h, h', t, c); }
    }
    forall t, v | (t, v) in h'.votes ensures VoteOk(g, h', t, v) {
      if (t, v) in h.votes { VoteOkGrows(g, h, h', t, v); }
    }
    forall t, v | (t, v) in h'.claims ensures ClaimOk(g, h', t, v) {
      if (t, v) in h.claims && h.claims[(t, v)] == h'.claims[(t, v)] > 0 { ClaimOkGrows(g, h, h', t, v); }
    }
    forall t | t in h'.cmt ensures CmtOk(g, h', t) {
      if t in h.cmt && h.cmt[t] == h'.cmt[t] { ChosenGrows(g, h, h', t, h.cmt[t]); }
    }
    forall c, t | (c, t) in h'.asked ensures AskOk(g, h', c, t) {
      if (c, t) in h.asked { AskOkGrows(g, h, h', c, t); }
    }
  }
}
