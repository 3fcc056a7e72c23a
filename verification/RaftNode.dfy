/** One node of the consensus protocol as a step function over values (raft-rs/src/raft.rs).
    Sends of a leader are left open here: `LeaderMay` says which messages a leader's state allows. */
module RaftNode {
  import opened Types
  import opened Quorum
  import opened ReadQueue

  datatype Role = Follower | Candidate | Leader | PreCandidate

  /** The fixed membership and settings: `peers` are the ids with a progress (voters and learners). */
  datatype Group = Group(cfg: JointConfig, peers: set<Id>, preVote: bool, checkQuorum: bool)

  predicate GroupOk(g: Group) {
    && g.cfg.incoming != {}
    && Voters(g.cfg) <= g.peers
    && NONE !in g.peers
  }

  datatype ReadState = ReadState(index: nat, ctx: Ctx)

  datatype Node = Node(
    id: Id,
    term: nat,
    vote: Id,
    role: Role,
    leaderId: Id,
    log: seq<Entry>,
    committed: nat,
    persisted: nat,
    votes: Votes,
    matched: map<Id, nat>,
    waiting: Reads,
    readStates: seq<ReadState>,
    priority: int)

  datatype Msg =
    | RequestVote(from: Id, to: Id, term: nat, pre: bool, lastIndex: nat, lastTerm: nat,
                  commit: nat, commitTerm: nat, priority: int)
    | VoteResp(from: Id, to: Id, term: nat, pre: bool, reject: bool, commit: nat, commitTerm: nat)
    | Append(from: Id, to: Id, term: nat, index: nat, logTerm: nat, entries: seq<Entry>, commit: nat)
    | AppendResp(from: Id, to: Id, term: nat, index: nat, reject: bool, hint: nat, hintTerm: nat, commit: nat)
    | Heartbeat(from: Id, to: Id, term: nat, commit: nat, ctx: Ctx)
    | HeartbeatResp(from: Id, to: Id, term: nat, commit: nat, ctx: Ctx)
    | ReadIndex(from: Id, to: Id, ctx: Ctx)
    | ReadIndexResp(from: Id, to: Id, term: nat, index: nat, ctx: Ctx)

  /** The result of handling an input: the new state and the messages to send, or a `fatal!`. */
  datatype Outcome = Ok(node: Node, out: set<Msg>) | Panic

  // ----- the log of a node that never saw a snapshot: entry i sits at position i - 1

  function TermAt(log: seq<Entry>, i: nat): nat {
    if i == 0 || i > |log| then 0 else log[i - 1].term
  }

  function LastTerm(log: seq<Entry>): nat {
    TermAt(log, |log|)
  }

  predicate IsUpToDate(log: seq<Entry>, index: nat, term: nat) {
    term > LastTerm(log) || (term == LastTerm(log) && index >= |log|)
  }

  /** The entries of an append follow its anchor directly and were all written in some term. */
  predicate Follows(ents: seq<Entry>, index: nat) {
    forall k :: 0 <= k < |ents| ==> ents[k].index == index + 1 + k && ents[k].term > 0
  }

  /** The index of the first entry that `log` does not hold, or zero. */
  function FindConflict(log: seq<Entry>, ents: seq<Entry>): nat {
    if ents == [] then 0
    else if TermAt(log, ents[0].index) != ents[0].term then ents[0].index
    else FindConflict(log, ents[1..])
  }

  /** The largest index at or below `index` whose term is at most `term`. */
  function FindConflictByTerm(log: seq<Entry>, index: nat, term: nat): (nat, Option<nat>)
    decreases index
  {
    if index > |log| then (index, None)
    else if TermAt(log, index) <= term then (index, Some(TermAt(log, index)))
    else FindConflictByTerm(log, index - 1, term)
  }

  // ----- role changes

  function Reset(n: Node, term: nat): Node {
    n.(term := term,
       vote := if n.term != term then NONE else n.vote,
       leaderId := NONE,
       votes := map[],
       waiting := NoReads,
       matched := map p | p in n.matched :: if p == n.id then n.persisted else 0)
  }

  function BecomeFollower(n: Node, term: nat, leader: Id): Node {
    Reset(n, term).(leaderId := leader, role := Follower)
  }

  function BecomeCandidate(n: Node): Node {
    Reset(n, n.term + 1).(vote := n.id, role := Candidate)
  }

  function BecomePreCandidate(n: Node): Node {
    n.(role := PreCandidate, votes := map[], leaderId := NONE)
  }

  function EmptyEntry(term: nat, index: nat): Entry {
    Entry(EntryNormal, term, index, [], [])
  }

  /** Fails when the last entry has not been persisted, like the assertion in `become_leader`. */
  function BecomeLeader(n: Node): Outcome {
    if n.persisted != |n.log| then Panic
    else Ok(Reset(n, n.term).(leaderId := n.id, role := Leader,
                              log := n.log + [EmptyEntry(n.term, |n.log| + 1)]), {})
  }

  // ----- elections

  function VoteRequest(n: Node, to: Id, pre: bool, term: nat): Msg {
    RequestVote(n.id, to, term, pre, |n.log|, LastTerm(n.log), n.committed, TermAt(n.log, n.committed), n.priority)
  }

  function VoteRequests(g: Group, n: Node, pre: bool, term: nat): set<Msg> {
    set v | v in Voters(g.cfg) && v != n.id :: VoteRequest(n, v, pre, term)
  }

  function WithVote(n: Node, from: Id, vote: bool): Node {
    n.(votes := RecordVote(n.votes, from, vote))
  }

  /** A node whose own vote decides. */
  predicate WinsAlone(g: Group, id: Id) {
    JointVote(g.cfg, map[id := true]) == Won
  }

  function Campaign(g: Group, n: Node): Outcome {
    var c := WithVote(BecomeCandidate(n), n.id, true);
    match JointVote(g.cfg, c.votes)
    case Won => BecomeLeader(c)
    case Lost => Ok(BecomeFollower(c, c.term, NONE), VoteRequests(g, c, false, c.term))
    case Pending => Ok(c, VoteRequests(g, c, false, c.term))
  }

  function PreCampaign(g: Group, n: Node): Outcome {
    var c := WithVote(BecomePreCandidate(n), n.id, true);
    match JointVote(g.cfg, c.votes)
    case Won => Campaign(g, c)
    case Lost => Ok(BecomeFollower(c, c.term, NONE), VoteRequests(g, c, true, n.term + 1))
    case Pending => Ok(c, VoteRequests(g, c, true, n.term + 1))
  }

  function Hup(g: Group, n: Node, pre: bool): Outcome {
    if n.role == Leader then Ok(n, {})
    else if pre then PreCampaign(g, n)
    else Campaign(g, n)
  }

  function Poll(g: Group, n: Node, from: Id, vote: bool): Outcome {
    var c := WithVote(n, from, vote);
    match JointVote(g.cfg, c.votes)
    case Won => if c.role == PreCandidate then Campaign(g, c) else BecomeLeader(c)
    case Lost => Ok(BecomeFollower(c, c.term, NONE), {})
    case Pending => Ok(c, {})
  }

  /** Commits an index whose entry has the given term. */
  function MaybeCommitAt(n: Node, index: nat, term: nat): Node {
    if index > n.committed && index <= |n.log| && TermAt(n.log, index) == term then n.(committed := index) else n
  }

  /** The commit information of a vote message: a candidate that learns of a committed membership
      change this way steps down. */
  function MaybeCommitByVote(n: Node, commit: nat, commitTerm: nat): Node {
    if commit == 0 || commitTerm == 0 || commit <= n.committed || n.role == Leader then n
    else
      var n' := MaybeCommitAt(n, commit, commitTerm);
      if n'.committed == n.committed || (n.role != Candidate && n.role != PreCandidate) then n'
      else if exists i :: n.committed <= i < n'.committed <= |n.log| && IsConfChange(n.log[i])
      then BecomeFollower(n', n'.term, NONE)
      else n'
  }

  predicate Grants(n: Node, m: Msg)
    requires m.RequestVote?
  {
    && (n.vote == m.from || (n.vote == NONE && n.leaderId == NONE) || (m.pre && m.term > n.term))
    && IsUpToDate(n.log, m.lastIndex, m.lastTerm)
    && (m.lastIndex > |n.log| || n.priority <= m.priority)
  }

  /** A rejection carries the node's own term, and a vote message without a term is fatal. */
  function HandleVoteRequest(n: Node, m: Msg): Outcome
    requires m.RequestVote?
  {
    if Grants(n, m) then
      Ok(if m.pre then n else n.(vote := m.from),
         {VoteResp(n.id, m.from, m.term, m.pre, false, 0, 0)})
    else if n.term == 0 then Panic
    else
      Ok(MaybeCommitByVote(n, m.commit, m.commitTerm),
         {VoteResp(n.id, m.from, n.term, m.pre, true, n.committed, TermAt(n.log, n.committed))})
  }

  function HandleVoteResponse(g: Group, n: Node, m: Msg): Outcome
    requires m.VoteResp?
  {
    if (n.role == PreCandidate && !m.pre) || (n.role == Candidate && m.pre) then Ok(n, {})
    else
      match Poll(g, n, m.from, !m.reject)
      case Panic => Panic
      case Ok(n', out) => Ok(MaybeCommitByVote(n', m.commit, m.commitTerm), out)
  }

  // ----- followers

  function CommitTo(n: Node, to: nat): Outcome {
    if n.committed >= to then Ok(n, {})
    else if |n.log| < to then Panic
    else Ok(n.(committed := to), {})
  }

  /** The new entries replace everything from the first conflict on; what was persisted there no
      longer counts. A conflict at or below the commit index is fatal. */
  function AppendFrom(n: Node, index: nat, ents: seq<Entry>): Outcome
    requires Follows(ents, index)
  {
    var ci := FindConflict(n.log, ents);
    if ci == 0 then Ok(n, {})
    else if ci <= n.committed then Panic
    else if ci <= index || ci - index - 1 > |ents| || ci - 1 > |n.log| then Panic
    else Ok(n.(log := n.log[..ci - 1] + ents[ci - index - 1..],
               persisted := if n.persisted > ci - 1 then ci - 1 else n.persisted), {})
  }

  function HandleAppend(n: Node, m: Msg): Outcome
    requires m.Append? && Follows(m.entries, m.index)
  {
    if m.index < n.committed then
      Ok(n, {AppendResp(n.id, m.from, n.term, n.committed, false, 0, 0, n.committed)})
    else if TermAt(n.log, m.index) != m.logTerm then
      var hint := FindConflictByTerm(n.log, Min(m.index, |n.log|), m.logTerm);
      match hint.1
      case None => Panic
      case Some(t) => Ok(n, {AppendResp(n.id, m.from, n.term, m.index, true, hint.0, t, n.committed)})
    else
      match AppendFrom(n, m.index, m.entries)
      case Panic => Panic
      case Ok(n1, _) =>
        var last := m.index + |m.entries|;
        match CommitTo(n1, Min(m.commit, last))
        case Panic => Panic
        case Ok(n2, _) => Ok(n2, {AppendResp(n.id, m.from, n.term, last, false, 0, 0, n2.committed)})
  }

  function HandleHeartbeat(n: Node, m: Msg): Outcome
    requires m.Heartbeat?
  {
    match CommitTo(n, m.commit)
    case Panic => Panic
    case Ok(n', _) => Ok(n', {HeartbeatResp(n.id, m.from, n.term, n'.committed, m.ctx)})
  }

  // ----- leaders

  /** The set of peers whose acknowledged index is at least `i`. */
  function Acked(matched: map<Id, nat>, i: nat): set<Id> {
    set v | v in matched && matched[v] >= i
  }

  /** An index that the acknowledged indexes allow to commit: the plain or the grouped commit index. */
  predicate Committable(g: Group, matched: map<Id, nat>, i: nat) {
    i == 0 || IsQuorum(g.cfg, Acked(matched, i))
  }

  function Acknowledge(n: Node, from: Id, index: nat): Node {
    if from in n.matched && n.matched[from] < index then n.(matched := n.matched[from := index]) else n
  }

  function HandleAppendResponse(n: Node, m: Msg, mci: nat): Node
    requires m.AppendResp?
  {
    if m.reject then n
    else
      var n' := Acknowledge(n, m.from, m.index);
      if n' == n then n else MaybeCommitAt(n', mci, n.term)
  }

  function PersistTo(n: Node, index: nat, mci: nat): Node {
    if index <= n.persisted then n
    else
      var n1 := n.(persisted := index);
      if n.role != Leader then n1
      else
        var n2 := Acknowledge(n1, n.id, index);
        if n2 == n1 then n1 else MaybeCommitAt(n2, mci, n.term)
  }

  /** Answers a read: locally for the node's own requests, with a message otherwise. */
  function Respond(n: Node, from: Id, ctx: Ctx, index: nat): (Node, set<Msg>) {
    if from == NONE || from == n.id then (n.(readStates := n.readStates + [ReadState(index, ctx)]), {})
    else (n, {ReadIndexResp(n.id, from, n.term, index, ctx)})
  }

  function RespondAll(n: Node, released: seq<Ctx>, pending: map<Ctx, ReadStatus>): (Node, set<Msg>)
    requires forall c :: c in released ==> c in pending
    decreases |released|
  {
    if released == [] then (n, {})
    else
      var st := pending[released[0]];
      var (n1, o1) := Respond(n, st.from, released[0], st.index);
      var (n2, o2) := RespondAll(n1, released[1..], pending);
      (n2, o1 + o2)
  }

  function HandleHeartbeatResponse(g: Group, n: Node, m: Msg): Outcome
    requires m.HeartbeatResp?
  {
    if m.from !in n.matched || m.ctx == [] then Ok(n, {})
    else
      var n1 := n.(waiting := RecvAck(n.waiting, m.from, m.ctx));
      if m.ctx !in n1.waiting.pending || JointVote(g.cfg, YesFrom(n1.waiting.pending[m.ctx].acks)) != Won then Ok(n1, {})
      else if !CanAdvance(n1.waiting, m.ctx) then Panic
      else
        ReleasedPending(n1.waiting, m.ctx);
        var released := Released(n1.waiting, m.ctx);
        var n2 := n1.(waiting := Advance(n1.waiting, m.ctx));
        var (n3, out) := RespondAll(n2, released, n1.waiting.pending);
        Ok(n3, out)
  }

  predicate CommittedInTerm(n: Node) {
    TermAt(n.log, n.committed) == n.term
  }

  function HandleReadIndex(g: Group, n: Node, m: Msg): Outcome
    requires m.ReadIndex?
  {
    if !CommittedInTerm(n) then Ok(n, {})
    else if IsSingleton(g.cfg) then
      var (n', out) := Respond(n, m.from, m.ctx, n.committed);
      Ok(n', out)
    else Ok(n.(waiting := AddRequest(n.waiting, n.committed, m.from, m.ctx, n.id)), {})
  }

  predicate CanAnchor(n: Node, to: Id, index: nat) {
    index <= |n.log| || (to in n.matched && index <= n.matched[to])
  }

  /** What a leader may send at any time: a slice of its log with the anchor's term and its commit
      index, or a heartbeat that commits no further than the receiver is known to match. An anchor
      past the end of the leader's log can only come from an acknowledged index. */
  predicate LeaderMay(g: Group, n: Node, m: Msg) {
    && n.role == Leader
    && (m.Append? || m.Heartbeat?)
    && m.from == n.id && m.to != n.id && m.to in n.matched && m.term == n.term
    && match m {
         case Append(_, to, _, index, logTerm, entries, commit) =>
           && CanAnchor(n, to, index)
           && logTerm == TermAt(n.log, index)
           && (if index <= |n.log| then entries <= n.log[index..] else entries == [])
           && commit == n.committed
         case Heartbeat(_, to, _, commit, ctx) =>
           && commit == Min(n.matched[to], n.committed)
           && (ctx == [] || ctx in n.waiting.pending)
         case _ => false
       }
  }

  // ----- the step function

  predicate WellFormed(m: Msg) {
    m.Append? ==> Follows(m.entries, m.index)
  }

  function StepFollower(g: Group, n: Node, m: Msg): Outcome
    requires WellFormed(m)
  {
    match m
    case Append(_, _, _, _, _, _, _) => HandleAppend(n.(leaderId := m.from), m)
    case Heartbeat(_, _, _, _, _) => HandleHeartbeat(n.(leaderId := m.from), m)
    case ReadIndex(from, _, ctx) =>
      if n.leaderId == NONE then Ok(n, {})
      else Ok(n, {ReadIndex(if from == NONE then n.id else from, n.leaderId, ctx)})
    case ReadIndexResp(_, _, _, index, ctx) =>
      Ok(MaybeCommitAt(n.(readStates := n.readStates + [ReadState(index, ctx)]), index, m.term), {})
    case _ => Ok(n, {})
  }

  function StepCandidate(g: Group, n: Node, m: Msg): Outcome
    requires WellFormed(m)
  {
    match m
    case Append(_, _, _, _, _, _, _) => HandleAppend(BecomeFollower(n, m.term, m.from), m)
    case Heartbeat(_, _, _, _, _) => HandleHeartbeat(BecomeFollower(n, m.term, m.from), m)
    case VoteResp(_, _, _, _, _, _, _) => HandleVoteResponse(g, n, m)
    case _ => Ok(n, {})
  }

  function StepLeader(g: Group, n: Node, m: Msg, mci: nat): Outcome
    requires WellFormed(m)
  {
    match m
    case AppendResp(_, _, _, _, _, _, _, _) => Ok(HandleAppendResponse(n, m, mci), {})
    case HeartbeatResp(_, _, _, _, _) => HandleHeartbeatResponse(g, n, m)
    case ReadIndex(_, _, _) => HandleReadIndex(g, n, m)
    case _ => Ok(n, {})
  }

  /** A message of the node's own term, or a local one. */
  function Dispatch(g: Group, n: Node, m: Msg, mci: nat): Outcome
    requires WellFormed(m)
  {
    if m.RequestVote? then HandleVoteRequest(n, m)
    else if n.role == Follower then StepFollower(g, n, m)
    else if n.role == Leader then StepLeader(g, n, m, mci)
    else StepCandidate(g, n, m)
  }

  /** A message of a later term makes the node a follower of that term, except for pre-vote traffic. */
  function CatchUp(n: Node, m: Msg): Node
    requires !m.ReadIndex?
  {
    if m.term <= n.term || (m.RequestVote? && m.pre) || (m.VoteResp? && m.pre && !m.reject) then n
    else BecomeFollower(n, m.term, if m.Append? || m.Heartbeat? then m.from else NONE)
  }

  function AnswerStale(g: Group, n: Node, m: Msg): Outcome
    requires !m.ReadIndex?
  {
    if (m.Heartbeat? || m.Append?) && (g.checkQuorum || g.preVote) then
      Ok(n, {AppendResp(n.id, m.from, n.term, 0, false, 0, 0, 0)})
    else if m.RequestVote? && m.pre then
      Ok(n, {VoteResp(n.id, m.from, n.term, true, true, 0, 0)})
    else Ok(n, {})
  }

  /** `Raft::step`. The commit index computed from the acknowledged indexes is the argument `mci`. */
  function Step(g: Group, n: Node, m: Msg, mci: nat): Outcome
    requires WellFormed(m)
  {
    if m.ReadIndex? || m.term == 0 then Dispatch(g, n, m, mci)
    else if m.term < n.term then AnswerStale(g, n, m)
    else Dispatch(g, CatchUp(n, m), m, mci)
  }
}
