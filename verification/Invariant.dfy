/** What holds of every node and of every message of a run, in terms of the history. */
module Invariant {
  import opened Types
  import opened Quorum
  import opened ReadQueue
  import opened RaftNode
  import opened History
  import opened Growth

  // ----- nodes

  ghost predicate ShapeOk(g: Group, h: Hist, n: Node) {
    && n.id in g.peers
    && n.matched.Keys == g.peers
    && Epoch(h, n.id) == n.term
    && n.persisted <= |n.log|
    && LogOk(h, n.log)
    && TermsBelow(n.log, n.term + 1)
    && ReadsOk(n.waiting)
    && (n.role != Leader ==> n.waiting == NoReads)
    && (n.role != Follower ==> n.id in Voters(g.cfg))
    && (n.role == PreCandidate ==> g.preVote && !WinsAlone(g, n.id))
  }

  ghost predicate BallotOk(g: Group, h: Hist, n: Node) {
    if n.vote == NONE then (n.term, n.id) !in h.votes
    else (n.term, n.id) in h.votes && h.votes[(n.term, n.id)].cand == n.vote
  }

  ghost predicate Supports(h: Hist, t: nat, v: Id, c: Id) {
    (t, v) in h.votes && h.votes[(t, v)].cand == c
  }

  /** A candidate still has the log it campaigned with, counts only votes given to it, and has not
      led its term. */
  ghost predicate CandidateOk(g: Group, h: Hist, n: Node) {
    n.role == Candidate ==>
      && (n.term, n.id) in h.runs && h.runs[(n.term, n.id)] == n.log
      && n.vote == n.id
      && (forall v :: v in n.votes && n.votes[v] ==> Supports(h, n.term, v, n.id))
      && !(n.term in h.lead && h.lead[n.term].id == n.id)
  }

  /** A leader's log is the log of its term; what it counts was acknowledged to it; what it has
      committed in its term, it committed by counting. */
  ghost predicate LeaderOk(g: Group, h: Hist, n: Node) {
    n.role == Leader ==>
      && n.term in h.lead && h.lead[n.term].id == n.id && h.lead[n.term].log == n.log
      && (forall v :: v in n.matched ==> n.matched[v] <= Claim(h, n.term, v))
      && (n.term in h.cmt ==> n.committed == h.cmt[n.term])
      && (CommittedInTerm(n) ==> n.term in h.cmt)
  }

  ghost predicate WaitingOk(g: Group, h: Hist, n: Node, c: Ctx)
    requires c in n.waiting.pending
  {
    var st := n.waiting.pending[c];
    && (c, n.term) in h.asked
    && h.asked[(c, n.term)].index <= st.index
    && CommittedAt(h, n.term, st.index)
    && st.acks !! h.asked[(c, n.term)].moved
  }

  ghost predicate ReadsFit(g: Group, h: Hist, n: Node) {
    && (forall c :: c in n.waiting.pending ==> WaitingOk(g, h, n, c))
    && (n.term !in h.reused ==> QueueFits(h, n.term, n.waiting.queue))
  }

  /** Without a context taken on again, the queue is in the order in which the reads were first taken
      on. The empty context confirms nothing, so it may come again. */
  ghost predicate QueueFits(h: Hist, t: nat, queue: seq<Ctx>) {
    forall i, j :: 0 <= i < j < |queue| && queue[j] != [] && (queue[i], t) in h.asked && (queue[j], t) in h.asked ==>
      h.asked[(queue[i], t)].moved <= h.asked[(queue[j], t)].moved
  }

  predicate Meets(commits: map<Id, nat>, index: nat) {
    forall v :: v in commits ==> commits[v] <= index
  }

  /** The leader of term `t` answered the read `c` with `index` when the read `d` was confirmed. */
  ghost predicate AnsweredBy(h: Hist, c: Ctx, index: nat, d: Ctx, t: nat) {
    && (c, t) in h.asked && (d, t) in h.asked
    && Meets(h.asked[(d, t)].commits, index)
    && (t !in h.reused ==> Meets(h.asked[(c, t)].commits, index))
  }

  /** An answer covers what was committed when the read that confirmed it was first taken on, and if
      no context was taken on again, what was committed when its own was. */
  ghost predicate AnswerOk(h: Hist, c: Ctx, index: nat) {
    exists d, t :: AnsweredBy(h, c, index, d, t)
  }

  ghost predicate AnswersOk(h: Hist, n: Node) {
    forall r :: r in n.readStates ==> AnswerOk(h, r.ctx, r.index)
  }

  /** What the node has acknowledged in its current term is still in its log, or committed. */
  ghost predicate ClaimHeld(h: Hist, n: Node) {
    var k := Claim(h, n.term, n.id);
    || k <= n.committed
    || (k <= |n.log| && n.term in h.lead && n.log[..k] <= h.lead[n.term].log)
  }

  ghost predicate NodeOk(g: Group, h: Hist, n: Node) {
    && ShapeOk(g, h, n)
    && BallotOk(g, h, n)
    && CandidateOk(g, h, n)
    && LeaderOk(g, h, n)
    && ReadsFit(g, h, n)
    && AnswersOk(h, n)
    && ClaimHeld(h, n)
    && Certified(g, h, n.log, n.committed, n.term)
    && Remembers(g, h, n.id, n.log, n.term + 1)
  }

  // ----- messages

  /** The commit index and term that a vote message carries belong to a committed entry. */
  ghost predicate VoteCommitBy(g: Group, h: Hist, c: nat, ct: nat, lim: nat, t: nat) {
    && t in h.cmt && t in h.lead
    && (g.preVote || t <= lim)
    && c <= h.cmt[t]
    && Has(h.lead[t].log, c, ct)
  }

  ghost predicate VoteCommit(g: Group, h: Hist, c: nat, ct: nat, lim: nat) {
    c == 0 || ct == 0 || exists t :: VoteCommitBy(g, h, c, ct, lim, t)
  }

  ghost predicate AppendOk(g: Group, h: Hist, m: Msg)
    requires m.Append?
  {
    && m.term in h.lead && h.lead[m.term].id == m.from
    && Follows(m.entries, m.index)
    && var l := h.lead[m.term].log;
       && Certified(g, h, l, m.commit, m.term)
       && (if m.index <= |l| && m.logTerm == TermAt(l, m.index)
           then m.entries <= l[m.index..]
           else m.entries == [] && m.logTerm == 0 && m.index <= Claim(h, m.term, m.to))
  }

  ghost predicate MsgOk(g: Group, h: Hist, m: Msg) {
    match m
    case RequestVote(from, _, term, pre, lastIndex, lastTerm, commit, commitTerm, _) =>
      && term > 0
      && from in g.peers
      && (pre ==> g.preVote)
      && VoteCommit(g, h, commit, commitTerm, term)
      && (!pre ==> (term, from) in h.runs && lastIndex == |h.runs[(term, from)]| && lastTerm == LastTerm(h.runs[(term, from)]))
    case VoteResp(from, to, term, pre, reject, commit, commitTerm) =>
      && term > 0
      && (pre ==> g.preVote)
      && VoteCommit(g, h, commit, commitTerm, term)
      && (!pre && !reject ==> Supports(h, term, from, to))
    case Append(_, _, _, _, _, _, _) => AppendOk(g, h, m)
    case AppendResp(from, _, term, index, reject, _, _, _) =>
      term > 0 && (!reject && index > 0 ==> index <= Claim(h, term, from))
    case Heartbeat(from, to, term, commit, ctx) =>
      && term in h.lead && h.lead[term].id == from
      && commit <= Claim(h, term, to)
      && Certified(g, h, h.lead[term].log, commit, term)
      && (ctx != [] ==> (ctx, term) in h.asked)
    case HeartbeatResp(from, _, term, _, ctx) =>
      term > 0 && (ctx != [] ==> (ctx, term) in h.asked && from !in h.asked[(ctx, term)].moved)
    case ReadIndex(_, _, _) => true
    case ReadIndexResp(_, _, term, index, ctx) =>
      term > 0 && CommittedAt(h, term, index) && AnswerOk(h, ctx, index)
  }

  // ----- both survive what happens elsewhere

  lemma TermAtPrefix(a: seq<Entry>, b: seq<Entry>, i: nat)
    requires a <= b && i <= |a|
    ensures TermAt(a, i) == TermAt(b, i)
  {
  }

  lemma VoteCommitGrows(g: Group, h: Hist, h': Hist, c: nat, ct: nat, lim: nat)
    requires Grows(h, h') && VoteCommit(g, h, c, ct, lim)
    ensures VoteCommit(g, h', c, ct, lim)
  {
    if c > 0 && ct > 0 {
      var t :| VoteCommitBy(g, h, c, ct, lim, t);
      assert LeadGrowsAt(h, h', t);
      assert VoteCommitBy(g, h', c, ct, lim, t);
    }
  }

  lemma CertifiedPrefixGrows(g: Group, h: Hist, h': Hist, a: seq<Entry>, b: seq<Entry>, c: nat, lim: nat)
    requires Grows(h, h') && Certified(g, h, a, c, lim) && a <= b
    ensures Certified(g, h', b, c, lim)
  {
    CertifiedGrows(g, h, h', a, c, lim, lim);
    if c > 0 {
      var t :| CertifiedBy(g, h', a, c, lim, t);
      assert b[..c] == a[..c];
      assert CertifiedBy(g, h', b, c, lim, t);
    }
  }

  lemma AppendOkGrows(g: Group, h: Hist, h': Hist, m: Msg)
    requires m.Append? && Grows(h, h') && AppendOk(g, h, m)
    ensures AppendOk(g, h', m)
  {
    assert LeadGrowsAt(h, h', m.term);
    var l, l' := h.lead[m.term].log, h'.lead[m.term].log;
    CertifiedPrefixGrows(g, h, h', l, l', m.commit, m.term);
    assert Claim(h, m.term, m.to) <= Claim(h', m.term, m.to);
    if m.index <= |l| && m.logTerm == TermAt(l, m.index) {
      TermAtPrefix(l, l', m.index);
      assert l[m.index..] <= l'[m.index..];
    } else if m.index <= |l'| {
      assert [] <= l'[m.index..];
    }
  }

  lemma MsgOkGrows(g: Group, h: Hist, h': Hist, m: Msg)
    requires Grows(h, h') && MsgOk(g, h, m)
    ensures MsgOk(g, h', m)
  {
    match m
    case RequestVote(_, _, term, _, _, _, commit, commitTerm, _) =>
      VoteCommitGrows(g, h, h', commit, commitTerm, term);
    case VoteResp(_, _, term, _, _, commit, commitTerm) =>
      VoteCommitGrows(g, h, h', commit, commitTerm, term);
    case Append(_, _, _, _, _, _, _) =>
      AppendOkGrows(g, h, h', m);
    case AppendResp(from, _, term, _, _, _, _, _) =>
      assert Claim(h, term, from) <= Claim(h', term, from);
    case Heartbeat(_, to, term, commit, _) =>
      assert LeadGrowsAt(h, h', term);
      assert Claim(h, term, to) <= Claim(h', term, to);
      CertifiedPrefixGrows(g, h, h', h.lead[term].log, h'.lead[term].log, commit, term);
    case HeartbeatResp(_, _, _, _, _) =>
    case ReadIndex(_, _, _) =>
    case ReadIndexResp(_, _, term, index, ctx) =>
      CommittedAtGrows(h, h', term, index);
      AnswerOkGrows(h, h', ctx, index);
  }

  lemma AnswerOkGrows(h: Hist, h': Hist, c: Ctx, index: nat)
    requires AsksKeep(h, h') && AnswerOk(h, c, index)
    ensures AnswerOk(h', c, index)
  {
    var d, t :| AnsweredBy(h, c, index, d, t);
    assert AnsweredBy(h', c, index, d, t);
  }

  lemma AnswersGrow(h: Hist, h': Hist, n: Node)
    requires AsksKeep(h, h') && AnswersOk(h, n)
    ensures AnswersOk(h', n)
  {
    hide AnswerOk, AsksKeep;
    forall r | r in n.readStates
      ensures AnswerOk(h', r.ctx, r.index)
    {
      AnswerOkGrows(h, h', r.ctx, r.index);
    }
  }

  lemma AnswersSame(h: Hist, n: Node, n': Node)
    requires AnswersOk(h, n) && n'.readStates == n.readStates
    ensures AnswersOk(h, n')
  {
    hide AnswerOk;
  }

  /** Waiting reads do not depend on the node's log. */
  lemma ReadsFitSame(g: Group, h: Hist, n: Node, n': Node)
    requires ReadsFit(g, h, n) && n'.waiting == n.waiting && n'.term == n.term
    ensures ReadsFit(g, h, n')
  {
    hide CommittedAt;
    forall c | c in n'.waiting.pending ensures WaitingOk(g, h, n', c) {
      assert WaitingOk(g, h, n, c);
    }
  }

  /** Waiting reads stay as they should be while the history grows. */
  lemma ReadsFitGrows(g: Group, h: Hist, h': Hist, n: Node)
    requires Grows(h, h') && ReadsFit(g, h, n) && ReadsOk(n.waiting)
    ensures ReadsFit(g, h', n)
  {
    hide EpochGrows, RunsKeep, VotesKeep, ClaimsGrow, LeadGrowsAt;
    forall c | c in n.waiting.pending ensures WaitingOk(g, h', n, c) {
      assert WaitingOk(g, h, n, c);
      CommittedAtGrows(h, h', n.term, n.waiting.pending[c].index);
    }
    forall i | 0 <= i < |n.waiting.queue|
      ensures (n.waiting.queue[i], n.term) in h.asked
    {
      assert WaitingOk(g, h, n, n.waiting.queue[i]);
    }
  }

  lemma ClaimHeldElsewhere(h: Hist, h': Hist, id: Id, n: Node)
    requires Move(id, h, h') && n.id != id && ClaimHeld(h, n)
    ensures ClaimHeld(h', n)
  {
    assert Claim(h', n.term, n.id) == Claim(h, n.term, n.id);
    if Claim(h, n.term, n.id) > n.committed {
      assert LeadGrowsAt(h, h', n.term);
    }
  }

  lemma LeaderElsewhere(g: Group, h: Hist, h': Hist, id: Id, n: Node)
    requires Move(id, h, h') && n.id != id && LeaderOk(g, h, n)
    ensures LeaderOk(g, h', n)
  {
    if n.role == Leader {
      assert LeadGrowsAt(h, h', n.term);
      forall v | v in n.matched
        ensures n.matched[v] <= Claim(h', n.term, v)
      {
        assert Claim(h, n.term, v) <= Claim(h', n.term, v);
      }
    }
  }

  lemma CandidateElsewhere(g: Group, h: Hist, h': Hist, id: Id, n: Node)
    requires Move(id, h, h') && n.id != id && CandidateOk(g, h, n)
    ensures CandidateOk(g, h', n)
  {
  }

  /** A node is not affected by the moves of the others. */
  lemma NodeOkElsewhere(g: Group, h: Hist, h': Hist, id: Id, n: Node)
    requires ClaimsOk(g, h) && Move(id, h, h') && n.id != id
    requires NodeOk(g, h, n)
    ensures NodeOk(g, h', n)
  {
    LogOkGrows(h, h', n.log);
    CandidateElsewhere(g, h, h', id, n);
    LeaderElsewhere(g, h, h', id, n);
    ClaimHeldElsewhere(h, h', id, n);
    CertifiedGrows(g, h, h', n.log, n.committed, n.term, n.term);
    RemembersGrows(g, h, h', n.id, n.log, n.term + 1);
    ReadsFitGrows(g, h, h', n);
    AnswersGrow(h, h', n);
    hide ReadsFit, AnswersOk, Certified, Remembers, LogOk;
  }
}
