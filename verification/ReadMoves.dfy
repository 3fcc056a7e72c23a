/** Moves of the read-index protocol: queueing a read, counting confirmations, answering. */
module ReadMoves {
  import opened Types
  import opened Quorum
  import opened ReadQueue
  import opened RaftNode
  import opened History
  import opened Growth
  import opened Invariant
  import opened Moves

  /** The nodes that have moved past term `t`. */
  function PastTerm(h: Hist, t: nat): set<Id> {
    set v | v in h.epoch && h.epoch[v] > t
  }

  /** Commit indexes that some leader committed by counting. */
  ghost predicate CommitsReal(h: Hist, commits: map<Id, nat>) {
    forall v :: v in commits && commits[v] > 0 ==> exists t :: t in h.cmt && commits[v] <= h.cmt[t]
  }

  function NewRec(h: Hist, n: Node, commits: map<Id, nat>): ReadRec {
    ReadRec(n.committed, PastTerm(h, n.term), commits)
  }

  /** A leader's commits of its own term lie above everything committed in earlier terms. */
  lemma EarlierCommitsLess(g: Group, h: Hist, t: nat, c: nat, t2: nat)
    requires GroupOk(g) && HistOk(g, h)
    requires t in h.lead && Has(h.lead[t].log, c, t)
    requires t2 in h.cmt && t2 < t
    ensures h.cmt[t2] < c
  {
    assert CmtOk(g, h, t2);
    var c2 := h.cmt[t2];
    LeaderCompleteness(g, h, t2, c2, t);
    assert LeadOk(g, h, t);
    LaterTermLater(g, h, h.lead[t].log, c2 - 1, c - 1);
  }

  lemma ElectorsMoved(g: Group, h: Hist, t: nat, t2: nat)
    requires LeadsOk(g, h) && VotesOk(g, h) && t2 in h.lead && t < t2
    ensures IsQuorum(g.cfg, h.lead[t2].quorum) && h.lead[t2].quorum <= PastTerm(h, t)
  {
    assert LeadOk(g, h, t2);
    forall v | v in h.lead[t2].quorum
      ensures v in PastTerm(h, t)
    {
      assert VoteOk(g, h, t2, v);
    }
  }

  /** A commit index beyond the leader's own means that a quorum has moved on. */
  lemma BeyondMeansMoved(g: Group, h: Hist, t: nat, t2: nat)
    requires GroupOk(g) && HistOk(g, h)
    requires t in h.cmt && CommittedAt(h, t, h.cmt[t]) && t2 in h.cmt
    requires h.cmt[t] < h.cmt[t2]
    ensures exists s :: IsQuorum(g.cfg, s) && s <= PastTerm(h, t)
  {
    if t2 < t {
      EarlierCommitsLess(g, h, t, h.cmt[t], t2);
    } else {
      assert CmtOk(g, h, t2);
      ElectorsMoved(g, h, t, t2);
    }
  }

  lemma AskRecOk(g: Group, h: Hist, n: Node, commits: map<Id, nat>)
    requires GroupOk(g) && HistOk(g, h) && CommitsReal(h, commits)
    requires CommittedAt(h, n.term, n.committed) && h.cmt[n.term] == n.committed
    ensures Covers(NewRec(h, n, commits)) || exists s :: IsQuorum(g.cfg, s) && s <= PastTerm(h, n.term)
  {
    if v :| v in commits && commits[v] > n.committed {
      var t :| t in h.cmt && commits[v] <= h.cmt[t];
      BeyondMeansMoved(g, h, n.term, t);
    }
  }

  lemma AskHist(g: Group, h: Hist, n: Node, c: Ctx, commits: map<Id, nat>) returns (h': Hist)
    requires GroupOk(g) && HistOk(g, h) && CommitsReal(h, commits)
    requires CommittedAt(h, n.term, n.committed) && h.cmt[n.term] == n.committed
    requires (c, n.term) !in h.asked
    ensures h' == h.(asked := h.asked[(c, n.term) := NewRec(h, n, commits)])
    ensures HistOk(g, h') && Move(n.id, h, h')
  {
    h' := h.(asked := h.asked[(c, n.term) := NewRec(h, n, commits)]);
    AskRecOk(g, h, n, commits);
    AskGrows(g, h, h', n, c, commits);
  }

  lemma AskGrows(g: Group, h: Hist, h': Hist, n: Node, c: Ctx, commits: map<Id, nat>)
    requires HistOk(g, h) && (c, n.term) !in h.asked
    requires h' == h.(asked := h.asked[(c, n.term) := NewRec(h, n, commits)])
    requires CommittedAt(h, n.term, n.committed) && h.cmt[n.term] == n.committed
    requires Covers(NewRec(h, n, commits)) || exists s :: IsQuorum(g.cfg, s) && s <= PastTerm(h, n.term)
    ensures HistOk(g, h') && Move(n.id, h, h')
  {
    hide HistOk, Grows, AsksOk, AskOk, AsksOrdered, IsQuorum, CommittedAt, Covers;
    HistAsks(g, h);
    CommittedInHist(h, n.term, n.committed);
    NewAskLast(g, h, h', n, c, commits);
    SameGrown(h, h', n.id);
    NewAskOk(g, h, h', n, c, commits);
    AskHistOk(g, h, h', c, n.term);
  }

  lemma CommittedInHist(h: Hist, t: nat, j: nat)
    requires CommittedAt(h, t, j)
    ensures t in h.cmt
  {
  }

  lemma NewAskOk(g: Group, h: Hist, h': Hist, n: Node, c: Ctx, commits: map<Id, nat>)
    requires h' == h.(asked := h.asked[(c, n.term) := NewRec(h, n, commits)])
    requires CommittedAt(h, n.term, n.committed)
    requires Covers(NewRec(h, n, commits)) || exists s :: IsQuorum(g.cfg, s) && s <= PastTerm(h, n.term)
    ensures AskOk(g, h', c, n.term)
  {
    assert CommittedAt(h', n.term, n.committed);
  }

  lemma RecordedEarlier(g: Group, h: Hist, t: nat, d: Ctx)
    requires AsksOk(g, h) && (d, t) in h.asked
    ensures h.asked[(d, t)].moved <= PastTerm(h, t) && t in h.cmt && h.asked[(d, t)].index <= h.cmt[t]
  {
    assert AskOk(g, h, d, t);
  }

  /** A read that is taken on for the first time comes after all others of its term. */
  lemma NewAskLast(g: Group, h: Hist, h': Hist, n: Node, c: Ctx, commits: map<Id, nat>)
    requires AsksOk(g, h) && (c, n.term) !in h.asked
    requires h' == h.(asked := h.asked[(c, n.term) := NewRec(h, n, commits)])
    requires n.term in h.cmt && h.cmt[n.term] == n.committed
    ensures AsksOrdered(h')
  {
    hide AskOk;
    forall d | (d, n.term) in h.asked
      ensures NoLater(h.asked[(d, n.term)], NewRec(h, n, commits))
    {
      RecordedEarlier(g, h, n.term, d);
    }
  }

  lemma AskHistOk(g: Group, h: Hist, h': Hist, c: Ctx, t: nat)
    requires HistOk(g, h) && Grows(h, h') && (c, t) in h'.asked && AskOk(g, h', c, t) && AsksOrdered(h')
    requires h' == h.(asked := h.asked[(c, t) := h'.asked[(c, t)]])
    ensures HistOk(g, h')
  {
    hide AskOk, AsksOrdered;
    ClaimsSame(g, h, h');
    HistOkGrows(g, h, h');
  }

  /** Taking on a context again is only noted. */
  lemma ReuseHist(g: Group, h: Hist, id: Id, t: nat) returns (h': Hist)
    requires HistOk(g, h)
    ensures h' == h.(reused := h.reused + {t})
    ensures HistOk(g, h') && Move(id, h, h')
  {
    h' := h.(reused := h.reused + {t});
    SameGrown(h, h', id);
    ClaimsSame(g, h, h');
    hide Grows, Move;
    HistOkGrows(g, h, h');
  }

  lemma LeaderCommittedAt(g: Group, h: Hist, n: Node)
    requires LeadsOk(g, h) && LeaderOk(g, h, n) && n.role == Leader && CommittedInTerm(n) && n.committed <= |n.log|
    ensures CommittedAt(h, n.term, n.committed) && h.cmt[n.term] == n.committed
  {
    assert LeadOk(g, h, n.term);
  }

  /** The node's invariant does not depend on which reads were asked. */
  lemma AskNode(g: Group, h: Hist, h': Hist, n: Node)
    requires NodeOk(g, h, n) && ClaimsOk(g, h) && Grows(h, h')
    requires h'.epoch == h.epoch && h'.lead == h.lead && h'.claims == h.claims && h'.cmt == h.cmt
    requires h'.votes == h.votes && h'.runs == h.runs
    ensures NodeOk(g, h', n)
  {
    hide ReadsFit, AnswersOk;
    ReadsKept(g, h, h', n, n);
    LogOkGrows(h, h', n.log);
    CertifiedGrows(g, h, h', n.log, n.committed, n.term, n.term);
    RemembersGrows(g, h, h', n.id, n.log, n.term + 1);
    hide Certified, Remembers, LogOk, Grows;
  }

  /** A read may be queued once its context is recorded for the term; if it is not the first time,
      that has to be noted. */
  lemma QueueKeepsFit(g: Group, h: Hist, n: Node, c: Ctx, from: Id)
    requires ReadsFit(g, h, n) && ReadsOk(n.waiting) && AsksOk(g, h) && c !in n.waiting.pending
    requires (c, n.term) in h.asked && Epoch(h, n.id) == n.term
    requires CommittedAt(h, n.term, n.committed) && h.cmt[n.term] == n.committed
    requires c == [] || n.term in h.reused || h.asked[(c, n.term)].moved == PastTerm(h, n.term)
    ensures ReadsFit(g, h, n.(waiting := AddRequest(n.waiting, n.committed, from, c, n.id)))
  {
    hide CommittedAt, AskOk;
    var n' := n.(waiting := AddRequest(n.waiting, n.committed, from, c, n.id));
    forall d | d in n'.waiting.pending ensures WaitingOk(g, h, n', d) {
      if d != c {
        assert WaitingOk(g, h, n, d);
      } else {
        RecordedEarlier(g, h, n.term, c);
      }
    }
    forall i | 0 <= i < |n.waiting.queue| && (n.waiting.queue[i], n.term) in h.asked
      ensures h.asked[(n.waiting.queue[i], n.term)].moved <= PastTerm(h, n.term)
    {
      RecordedEarlier(g, h, n.term, n.waiting.queue[i]);
    }
  }

  lemma QueueNode(g: Group, h: Hist, n: Node, c: Ctx, from: Id)
    requires NodeOk(g, h, n) && AsksOk(g, h) && n.role == Leader && c !in n.waiting.pending
    requires (c, n.term) in h.asked
    requires CommittedAt(h, n.term, n.committed) && h.cmt[n.term] == n.committed
    requires c == [] || n.term in h.reused || h.asked[(c, n.term)].moved == PastTerm(h, n.term)
    ensures NodeOk(g, h, n.(waiting := AddRequest(n.waiting, n.committed, from, c, n.id)))
  {
    hide Remembers, LogOk, Certified, ReadsFit, AsksOk, CommittedAt;
    QueueKeepsFit(g, h, n, c, from);
  }

  /** A leader that committed in its term takes on a read for the first time in it. */
  lemma AskMove(g: Group, h: Hist, n: Node, c: Ctx, commits: map<Id, nat>) returns (h': Hist)
    requires Ready(g, h, n) && n.role == Leader && CommittedInTerm(n)
    requires (c, n.term) !in h.asked && CommitsReal(h, commits)
    ensures HistOk(g, h') && Move(n.id, h, h') && NodeOk(g, h', n)
    ensures h' == h.(asked := h.asked[(c, n.term) := NewRec(h, n, commits)])
  {
    LeaderCommittedAt(g, h, n);
    h' := AskHist(g, h, n, c, commits);
    AskNode(g, h, h', n);
  }

  // ----- confirmations

  /** A leader's waiting reads may change as long as they fit the history. */
  lemma WaitingNode(g: Group, h: Hist, n: Node, w: Reads)
    requires NodeOk(g, h, n) && n.role == Leader
    requires ReadsOk(w) && ReadsFit(g, h, n.(waiting := w))
    ensures NodeOk(g, h, n.(waiting := w))
  {
    hide Remembers, LogOk, Certified, ReadsFit, ReadsOk;
  }

  lemma AckFits(g: Group, h: Hist, n: Node, from: Id, c: Ctx)
    requires ReadsFit(g, h, n)
    requires c in n.waiting.pending ==> (c, n.term) in h.asked && from !in h.asked[(c, n.term)].moved
    ensures ReadsFit(g, h, n.(waiting := RecvAck(n.waiting, from, c)))
  {
    var n' := n.(waiting := RecvAck(n.waiting, from, c));
    forall d | d in n'.waiting.pending ensures WaitingOk(g, h, n', d) {
      assert WaitingOk(g, h, n, d);
    }
  }

  lemma AckNode(g: Group, h: Hist, n: Node, from: Id, c: Ctx)
    requires NodeOk(g, h, n) && n.role == Leader
    requires c in n.waiting.pending ==> (c, n.term) in h.asked && from !in h.asked[(c, n.term)].moved
    ensures NodeOk(g, h, n.(waiting := RecvAck(n.waiting, from, c)))
  {
    hide Remembers, LogOk, Certified, ReadsFit;
    AckFits(g, h, n, from, c);
    WaitingNode(g, h, n, RecvAck(n.waiting, from, c));
  }

  lemma AckMove(g: Group, h: Hist, n: Node, from: Id, c: Ctx)
    requires Ready(g, h, n) && n.role == Leader
    requires c in n.waiting.pending ==> (c, n.term) in h.asked && from !in h.asked[(c, n.term)].moved
    ensures Moved(g, h, n, h, n.(waiting := RecvAck(n.waiting, from, c)))
  {
    AckNode(g, h, n, from, c);
    MoveRefl(n.id, h);
  }

  lemma AdvanceFits(g: Group, h: Hist, n: Node, c: Ctx)
    requires ReadsFit(g, h, n)
    ensures ReadsFit(g, h, n.(waiting := Advance(n.waiting, c)))
  {
    var n' := n.(waiting := Advance(n.waiting, c));
    forall d | d in n'.waiting.pending ensures WaitingOk(g, h, n', d) {
      assert WaitingOk(g, h, n, d);
    }
    var k := |Released(n.waiting, c)|;
    forall i | 0 <= i < |n'.waiting.queue|
      ensures n'.waiting.queue[i] == n.waiting.queue[k + i]
    {
    }
  }

  lemma AdvanceNode(g: Group, h: Hist, n: Node, c: Ctx)
    requires NodeOk(g, h, n) && n.role == Leader
    ensures NodeOk(g, h, n.(waiting := Advance(n.waiting, c)))
  {
    hide Remembers, LogOk, Certified, ReadsFit, ReadsOk;
    AdvanceFits(g, h, n, c);
    AdvanceKeepsOk(n.waiting, c);
    WaitingNode(g, h, n, Advance(n.waiting, c));
  }

  /** A read confirmed by a quorum that had not moved on covers what was committed. */
  lemma ConfirmedCovers(g: Group, h: Hist, c: Ctx, t: nat, acks: set<Id>)
    requires GroupOk(g) && AsksOk(g, h) && (c, t) in h.asked
    requires IsQuorum(g.cfg, acks) && acks !! h.asked[(c, t)].moved
    ensures Covers(h.asked[(c, t)])
  {
    assert AskOk(g, h, c, t);
    if !Covers(h.asked[(c, t)]) {
      var s :| IsQuorum(g.cfg, s) && s <= h.asked[(c, t)].moved;
      var u := QuorumsMeet(g.cfg, s, acks);
    }
  }

  /** A read that is answered together with a confirmed one. If it was first taken on before that one,
      its own answer is confirmed too; otherwise its index is no smaller than the confirmed one's. */
  lemma AnsweredWith(g: Group, h: Hist, d: Ctx, c: Ctx, t: nat, acks: set<Id>, index: nat)
    requires GroupOk(g) && AsksOk(g, h) && (c, t) in h.asked && (d, t) in h.asked
    requires IsQuorum(g.cfg, acks) && acks !! h.asked[(c, t)].moved && h.asked[(d, t)].index <= index
    requires t !in h.reused ==> h.asked[(d, t)].moved <= h.asked[(c, t)].moved
    ensures AnswerOk(h, d, index)
  {
    var x, y := h.asked[(d, t)], h.asked[(c, t)];
    ConfirmedCovers(g, h, c, t, acks);
    assert NoLater(x, y) || NoLater(y, x);
    hide AsksOk, AskOk, IsQuorum;
    if x.moved <= y.moved {
      assert acks !! x.moved;
      ConfirmedCovers(g, h, d, t, acks);
      assert AnsweredBy(h, d, index, d, t);
    } else {
      assert AnsweredBy(h, d, index, c, t);
    }
  }

  /** Everything that a confirmed read releases may be answered with it. */
  lemma ReleasedAnswers(g: Group, h: Hist, n: Node, c: Ctx, i: nat)
    requires GroupOk(g) && AsksOk(g, h) && ReadsFit(g, h, n) && ReadsOk(n.waiting) && c != []
    requires c in n.waiting.pending && IsQuorum(g.cfg, n.waiting.pending[c].acks)
    requires i < |Released(n.waiting, c)|
    ensures var d := Released(n.waiting, c)[i];
            d in n.waiting.pending && Answerable(g, h, n, d, n.waiting.pending[d].index)
  {
    var k := Position(n.waiting.queue, c);
    var d := n.waiting.queue[i];
    assert n.waiting.queue[k] == c && i <= k;
    hide Position, Released, IsQuorum, AsksOk, AnswerOk, CommittedAt;
    assert d in n.waiting.pending;
    assert WaitingOk(g, h, n, c) && WaitingOk(g, h, n, d);
    AnsweredWith(g, h, d, c, n.term, n.waiting.pending[c].acks, n.waiting.pending[d].index);
  }

  /** What may be answered by the leader of the node's term. */
  ghost predicate Answerable(g: Group, h: Hist, n: Node, d: Ctx, index: nat) {
    AnswerOk(h, d, index) && CommittedAt(h, n.term, index)
  }

  lemma RespondNode(g: Group, h: Hist, n: Node, from: Id, c: Ctx, index: nat)
    requires NodeOk(g, h, n) && n.term > 0 && Answerable(g, h, n, c, index)
    ensures var (n', out) := Respond(n, from, c, index);
            && NodeOk(g, h, n') && n'.id == n.id && n'.term == n.term
            && forall m :: m in out ==> MsgOk(g, h, m)
  {
    hide Remembers, LogOk, Certified;
  }

  lemma {:induction false} RespondAllNode(g: Group, h: Hist, n: Node, released: seq<Ctx>, pending: map<Ctx, ReadStatus>)
    requires NodeOk(g, h, n) && n.term > 0
    requires forall d :: d in released ==> d in pending && Answerable(g, h, n, d, pending[d].index)
    ensures var (n', out) := RespondAll(n, released, pending);
            && NodeOk(g, h, n') && n'.id == n.id && n'.term == n.term
            && forall m :: m in out ==> MsgOk(g, h, m)
    decreases |released|
  {
    if released != [] {
      var d := released[0];
      RespondNode(g, h, n, pending[d].from, d, pending[d].index);
      var n1 := Respond(n, pending[d].from, d, pending[d].index).0;
      forall e | e in released[1..]
        ensures e in pending && Answerable(g, h, n1, e, pending[e].index)
      {
        assert Answerable(g, h, n, e, pending[e].index);
      }
      RespondAllNode(g, h, n1, released[1..], pending);
    }
  }
}
