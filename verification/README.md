# A model of the raft-rs consensus crate

The crate is a deterministic state machine: it takes messages and local events, updates a node, and
hands back messages to send, entries to persist and entries to apply. This project models its log, flow
control, quorum arithmetic, membership changes, read queue, one node, the ready pipeline, and a cluster of
nodes, and proves what the algorithm is for: Ongaro and Ousterhout, "In Search of an Understandable
Consensus Algorithm", sections 5.2 to 5.4 and 6, and Ongaro's thesis, sections 4.3, 6.4, 9.6 and 10.2.1.

## How it is laid out

What the program updates in place is modelled twice: as a class whose methods update its fields, and as
functions on values. Each method is proved to do what its function says; what the functions mean is then
proved in lemmas, and the whole-run theorems are about them.

- `Types`, `Quorum`, `CommitIndex`: majorities, joint majorities, vote outcomes, plain and grouped commit indexes.
- `Inflights`, `Flow`, `FlowAnswers`, `FlowClasses`: the send window and a peer's progress, and the sending loop.
- `LogModel`, `LogRuns`, `CursorAnswers`, `LogClasses`: the store and the unstable tail as one log with its cursors.
- `ConfChange`, `ConfTargets`, `Restore`, `ConfClasses`: membership changes, where they lead, and the round trip
  through a written state.
- `ReadQueue`, `ReadClass`: pending reads.
- `RaftNode`, `RaftClass`: one node's step function, on values and as an object; `VoteAnswers`, `AppendAnswers`,
  `CommitProgress` and `ReadReplies` say what it answers; `NodeLog` connects its log to `LogModel`.
- `Pipeline`, `Screening`, `PipelineRuns`, `PipelineKeeps`, `PipelineEvents`, `ReadyEvents`, `PipelineSafety`,
  `PipelineAnswers`, `PersistProgress`, `RawNodeClass`: a node together with its application: ready, write, advance, persist, apply, propose.
- `Cluster` and the modules it rests on: nodes and a set of sent messages from which nothing is removed, so
  loss, duplication and reordering are included. `History` records what happened (who led with which log,
  who voted for what, what was acknowledged and committed); `Growth` says how it may grow; `Invariant` ties
  nodes and messages to it; `Moves`, `LogMoves`, `ReadMoves` are the elementary changes; `Handlers`,
  `AppendHandled`, `StepHandled` put them together; `Safety`, `ReadSafety`, `ReadOnce`, `NoPanic`, `SoleVoter`
  and, for what can still happen, `Progress` draw the conclusions.
- `ProbeRuns`, `ProbeInRuns`: how a leader finds the point up to which a follower agrees with it.
- `Examples`, `Traces`, `StaleReads`, `PriorityRuns`: concrete runs, built step by step: one that elects, commits and reads, one
  that fails, runs whose reads are answered with too little, and one after which a quorum cannot elect.

In the cluster the leader's sends are left open: a predicate says which appends and heartbeats its state
allows, and `ProbeRuns.SendIsAllowed` shows that what the flow control sends is among them. The index that a
leader commits is any that a quorum has acknowledged; `CommitIndex.CommitIndexIsCommittable` shows that
the computed one, plain or grouped, is such an index.

## What came out differently than the documentation says

- A pre-vote request carries commit information without raising the receiver's term. A node can therefore
  commit by an entry of a later term than its own, and then answer the leader of its own, older term with
  its commit index, although its log differs from that leader's below it. That answer is not an
  acknowledgement of the leader's entries. It does no harm, because that leader can no longer commit
  there (`LogMoves.OvertakenMayClaim`); the theorems cover it.
- A pre-vote request that is refused by a node still in term zero is answered with a vote message without a
  term, which `send` treats as fatal (raft-rs/src/raft.rs:620-652). It takes a sender with an empty log and a
  lower priority than the receiver's: `Examples.RefusedRun` is a run that does it with two fresh voters.
  `NoPanic.DeliveryFailsExactly` shows that no other delivery fails in any run, and
  `NoPanic.DeliveryFailsByPriority` that none does while priorities are equal.
- With priorities a quorum can be unable to elect a leader: a voter with the later entry, but the lower priority
  and no longer log, is refused because of its priority, and refuses the other because of its log
  (`PriorityRuns.PrioritiesBlock`; `VoteAnswers.NeitherVotesExactly` says which voters are like that). While
  priorities are equal, every quorum can always elect one of its voters and commit (`Progress.CanCommit`).
- A read answer covers what was committed when the read whose confirmation released it was taken on, which
  need not be the read itself: a confirmation releases everything queued before its context, also when
  the leader has taken on that context anew and the confirmation belongs to the first time. A forwarded
  read that the network delivers twice is enough, even if clients never repeat a context, and it is the
  answer of another client that is too old (`StaleReads.StaleRun`); so is a context that a client repeats
  (`StaleReads.SameContextStale`). The condition is exact: answers cover the commits of the moment their
  reads were taken on if and only if no leader takes on a non-empty context twice in its term
  (`StaleReads.ReadsCoveredExactly`). It holds, and reads are linearizable from the client's request on, if
  clients do not repeat contexts and the transport does not deliver a forwarded read again
  (`ReadOnce.ClientReadsLinearizable`). The crate's documentation only suggests a unique context
  (raft-rs/src/read_only.rs:44-47).
- A dropped batch of proposals leaves its membership change recorded as pending although it is nowhere in
  the log, so further changes are refused until the log has been applied up to the recorded index; the
  property that at most one is pending is not affected.

## Model

| member | source | states |
|---|---|---|
| Safety.StateMachineSafety | raft-rs/src/raft.rs:946-957 | Over every run of the cluster, two nodes that have committed an index, at the same or at different times, hold the same entry there; covers commits by count, by append, by heartbeat, by vote and by read answer |
| Safety.ElectionSafety | raft-rs/src/raft.rs:2228-2263 | Over every run at most one node ever leads a term, and the log of that leader only grows |
| Safety.LogMatchingInRun | raft-rs/src/raft_log.rs:248-278 | In every run two logs with an entry of the same index and term are identical up to it, also across time |
| Safety.CommittedReachesLaterLeaders | raft-rs/src/raft.rs:1471-1515 | What a node has committed is in the log of every later leader whose term is past every term of that moment |
| Safety.CommittedIsForever | raft-rs/src/raft.rs:995-1024 | From any state of a run to any later one, a term never falls, a vote within a term only goes from none to one id, the commit index never falls and no committed entry is rewritten |
| Safety.StepKeepsNode | raft-rs/src/raft.rs:1333-1523 | One call of step, for any state and message, keeps term, vote and committed entries in that sense |
| Safety.PreVoteChangesNothing | raft-rs/src/raft.rs:1471-1515 | A pre-vote request changes neither term nor vote nor log of its receiver |
| Safety.PreVoteAnswerKeepsVote | raft-rs/src/raft.rs:2292-2306 | An answer to a pre-vote request keeps term and vote, or makes the node vote for itself in the next term, or, refused from a later term, makes it a follower of that term without a vote |
| Progress.CanCommit | raft-rs/src/raft.rs:1333-1523 | From every state of every run, any quorum of voters with equal priorities, none of which decides alone, has a continuation in which one of them leads a term later than all, its log being its old one, an empty entry and any proposed entries, and all of the quorum have committed exactly that log; it holds whatever any node had committed |
| Progress.Elect | raft-rs/src/raft.rs:1270-1316 | From every state of every run, a voter whose log is no older and whose priority is no lower than that of each voter of a quorum can be elected by them in a later term |
| PriorityRuns.PrioritiesBlock | raft-rs/src/raft.rs:1471-1500 | A run after which two of three voters, a quorum, each refuse the other's vote request in every later term, because the one with the later entry has the lower priority and no longer log |
| VoteAnswers.VoteAnswered | raft-rs/src/raft.rs:1471-1515 | A request of the node's or a later term is granted, and the vote recorded, exactly if the vote is free or the sender's, the sender's last entry has a later term, or the same term in a log that is no shorter, and the sender's log is longer or its priority no lower; otherwise the refusal carries the commit index and its term, and the commit index follows the request's |
| VoteAnswers.PreVoteAnswered | raft-rs/src/raft.rs:1471-1515 | A pre-vote is granted in the same cases and changes nothing; a refusal carries the node's own term, and fails in term zero |
| VoteAnswers.StaleRequestAnswered | raft-rs/src/raft.rs:1426-1462 | A request of an earlier term is refused for a pre-vote and ignored for a vote |
| VoteAnswers.OneIsNoOlder | raft-rs/src/raft_log.rs:410-419 | Of any two logs at least one is up to date for the holder of the other |
| VoteAnswers.OneVotesForTheOther | raft-rs/src/raft.rs:1471-1500 | So of two voters of equal priority at least one votes for the other in any later term |
| VoteAnswers.NeitherVotesExactly | raft-rs/src/raft.rs:1471-1500 | Of two voters neither votes for the other exactly if one has the later entry, but no longer log and a lower priority |
| VoteAnswers.TimeoutAsks | raft-rs/src/raft.rs:1270-1316 | A timeout makes a node that does not lead ask every other voter, and nobody else, with the end of its log, its commit index and its priority, as a candidate of the next term with a vote for itself or as a pre-candidate in its own; a node whose own vote decides leads at once |
| VoteAnswers.AnswerDecides | raft-rs/src/raft.rs:2228-2263 | An answer makes a candidate the leader exactly if the known yes votes then hold a quorum, with one empty entry behind its log and nothing acknowledged but what it has persisted, and a follower if no quorum is possible any more; otherwise it is counted once |
| VoteAnswers.PreAnswerDecides | raft-rs/src/raft.rs:2228-2263 | An answer to a pre-vote makes the node campaign, and ask for votes, exactly if the known yes votes then hold a quorum |
| VoteAnswers.VoteMessageCommits | raft-rs/src/raft.rs:2183-2226 | A vote message commits at a node that does not lead exactly the index it names if the log has that term there; a candidate steps down exactly if a membership change is among what it thereby commits |
| AppendAnswers.AppendTaken | raft-rs/src/raft.rs:2461-2520 | An append of the node's or a later term whose anchor the log holds at or past the commit index is acknowledged up to its last entry; the entries replace the log from the first whose term differs on, what was persisted there no longer counts, and the commit index becomes the greater of its own and the lesser of the leader's and the last entry |
| AppendAnswers.TakenOverHolds | raft-rs/src/raft_log.rs:248-278 | The log then holds every entry of the message, term by term, behind what it had up to the anchor |
| AppendAnswers.AppendRefused | raft-rs/src/raft.rs:2485-2516 | An anchor that the log does not hold is refused, with the greatest index up to it whose term is at most the anchor's as a hint, and nothing changes but the leader |
| AppendAnswers.AppendPastEnd | raft-rs/src/raft.rs:2461-2520 | An anchor of term zero past the end of the log is acknowledged without entries, and fails with them |
| AppendAnswers.AppendBehind | raft-rs/src/raft.rs:2466-2478 | An append anchored below the commit index is answered with the commit index |
| AppendAnswers.HeartbeatTaken | raft-rs/src/raft.rs:2524-2536 | A heartbeat raises the commit index to its own, is answered with its context, and fails exactly past the end of the log |
| AppendAnswers.StaleLeaderAnswered | raft-rs/src/raft.rs:1398-1425 | A leader of an earlier term is told the later one exactly if pre-votes or quorum checks are on |
| AppendAnswers.StaleIgnored | raft-rs/src/raft.rs:1447-1462 | Every other message of an earlier term is ignored |
| AppendAnswers.NotConcerned | raft-rs/src/raft.rs:2267-2317 | A follower ignores answers, a leader votes, appends, heartbeats and read answers, a candidate everything but appends, heartbeats and answers to its own kind of candidacy |
| AppendAnswers.LaterTermFollows | raft-rs/src/raft.rs:1361-1397 | A message of a later term, but for a pre-vote request or a granted pre-vote, makes the node a follower of that term, of the sender if it is a leader |
| AppendAnswers.HeartbeatAllowed | raft-rs/src/raft.rs:861-884 | The heartbeats of a leader, with its latest pending read as context, are among the messages the cluster allows it |
| CommitProgress.LeadersCommitAcked | raft-rs/src/raft.rs:946-957 | In every run in which commit indexes are computed from the acknowledgements, at any time each leader has committed every entry of its term that a quorum has acknowledged to it |
| CommitProgress.AckCommits | raft-rs/src/raft.rs:1782-1805 | An acknowledgement past what the leader knew of a peer is noted, and the leader commits the computed index exactly if it is past its commit index and in its log with its term |
| CommitProgress.OtherAcks | raft-rs/src/raft.rs:1721-1786 | Any other answer to an append changes neither acknowledgements nor commit index |
| CommitProgress.PersistCommits | raft-rs/src/raft.rs:1047-1069 | What a leader has persisted counts as its own acknowledgement and commits in the same way |
| CommitProgress.CommittableInLog | raft-rs/src/raft.rs:946-957 | In every state that the invariant allows, no quorum has acknowledged more than the leader's log |
| CommitProgress.ComputedIsCommitIndex | raft-rs/src/tracker.rs:285-289 | The index computed from the acknowledgements without groups is the greatest that a quorum has acknowledged |
| CommitProgress.OneHalfIsGreatestAcked | raft-rs/src/quorum/majority.rs:70-124 | In a configuration of one half it is the greatest one acknowledged by a majority |
| ReadReplies.ReadForwarded | raft-rs/src/raft.rs:2382-2393 | A follower passes a read to its leader in the name of the node that asked, or drops it without one |
| ReadReplies.AnswerHandedOver | raft-rs/src/raft.rs:2394-2412 | A follower hands an answer of its term to the client, exactly once, and commits its index if the log has that term there |
| ReadReplies.ReadQueued | raft-rs/src/raft.rs:2113-2139 | A leader drops a read before it has committed in its term, answers it with its commit index if it is the only voter, and queues it otherwise behind the others with that index, who asked and its own acknowledgement, unless its context is pending |
| ReadReplies.ConfirmationAnswered | raft-rs/src/raft.rs:1862-1875 | A confirmation is noted; if a quorum has then confirmed, the read and all queued before it are answered, each with its own index and to the node that asked, and leave the queue; the rest stays |
| ReadReplies.AnsweredOnce | raft-rs/src/raft.rs:2863-2878 | A released read asked at the leader itself is answered by exactly one read state |
| ReadSafety.ReadAnswers | raft-rs/src/raft.rs:2113-2139 | In every run an answered read was taken on by the leader of some term, and its index covers every commit index in the cluster at the moment that leader first took on the read whose confirmation released it; if the leader took on no context again, also at the moment it took on the read itself |
| ReadSafety.ReadIndexLinearizable | raft-rs/src/raft.rs:2113-2139 | In a run in which no leader takes on a non-empty context twice in its term, every answered read covers every commit index at the moment it was taken on |
| ReadOnce.ClientReadsLinearizable | raft-rs/src/raft.rs:2113-2139 | In a run in which no two client requests have the same context and no forwarded read is delivered again, every answered read was asked for, and its index covers every commit index in the cluster at the moment it was asked |
| StaleReads.StaleRun | raft-rs/src/read_only.rs:86-99 | A run in which the contexts c and d are each asked for once: the forwarded read c and its confirmation are delivered again, and the leader answers d with an index below what another node had committed before d was asked |
| StaleReads.SameContextStale | raft-rs/src/read_only.rs:104-129 | A run in which a context is asked for again after it was answered, and a repeated confirmation answers it with an index below what was committed when it was asked again |
| StaleReads.ForwardedReadAnswered | raft-rs/src/raft.rs:2394-2412 | A run in which a read asked at a follower is forwarded, confirmed and answered at that follower |
| StaleReads.ReadsCoveredExactly | raft-rs/src/read_only.rs:86-129 | If leaders may take on twice only contexts of a set, every answer of every run covers the commits of the moment its read was first taken on exactly when the set holds no non-empty context |
| NoPanic.DeliveryFailsExactly | raft-rs/src/raft.rs:620-683 | In every reachable state delivering a message hits a fatal check exactly when a node in term zero gets a pre-vote request from a node with an empty log and a lower priority than its own; so no append conflicts with a committed entry, no commit index passes the end of a log, and no released read is missing |
| NoPanic.DeliveryFailsByPriority | raft-rs/src/raft.rs:1471-1515 | The same with the priorities the two nodes are configured with: with equal priorities no delivery ever fails |
| NoPanic.ReadsNeverFail | raft-rs/src/read_only.rs:114-129 | While queue and map of the pending reads agree, releasing reads never fails |
| SoleVoter.TimeoutNeverFails | raft-rs/src/raft.rs:1204-1255 | In no reachable state does a timeout, direct or by pre-vote, fail: the assertion in become_leader could only fail for a node whose own vote decides, and that node leads from its first timeout on |
| History.LeaderCompleteness | raft-rs/src/raft.rs:1471-1515 | An entry that a quorum acknowledged in its term is in the log of every later leader |
| History.LogMatching | raft-rs/src/raft_log.rs:181-197 | Logs made of prefixes of leaders' logs agree up to any entry of the same index and term |
| History.CertifiedAgree | raft-rs/src/raft_log.rs:285-299 | Two logs whose commit indexes are vouched for by leaders agree on what both have committed |
| StepHandled.StepKeeps | raft-rs/src/raft.rs:1333-1523 | Handling any message keeps the node invariant, and every message it sends satisfies the message invariant; what is answered is in VoteAnswers, AppendAnswers, CommitProgress and ReadReplies |
| StepHandled.ReadIndexTaken | raft-rs/src/raft.rs:2113-2139 | Taking on a read, queued or answered at once by a single voter, keeps the invariant; the commit indexes of that moment are recorded the first time its context is taken on in the term, and a later time is noted |
| StepHandled.LeaderMessageOk | raft-rs/src/raft.rs:800-883 | Every append and heartbeat that a leader's state allows satisfies the message invariant |
| Handlers.VoteRequestHandled | raft-rs/src/raft.rs:1471-1515 | Granting or refusing a vote, and committing from the request, keeps the invariant; when it is granted is VoteAnswers.VoteAnswered |
| Handlers.VoteResponseHandled | raft-rs/src/raft.rs:2292-2306 | Counting a vote, possibly becoming leader, and committing from the answer keeps the invariant |
| Handlers.MaybeCommitByVoteHandled | raft-rs/src/raft.rs:2183-2226 | A commit learned from a vote message is one that a leader made |
| AppendHandled.AppendMsgHandled | raft-rs/src/raft.rs:2461-2520 | Accepting, rejecting or skipping an append keeps the invariant; what is acknowledged is in the log or committed; what is taken over and committed is AppendAnswers.AppendTaken |
| AppendHandled.HeartbeatHandled | raft-rs/src/raft.rs:2524-2536 | The commit index of a heartbeat is never past what the receiver holds and shares with the leader |
| LogMoves.LeaderCommitMove | raft-rs/src/raft.rs:946-957 | Committing an entry of the leader's own term that a quorum acknowledged keeps the invariant; that it is committed is CommitProgress.LeadersCommitAcked |
| LogMoves.OvertakenMayClaim | raft-rs/src/raft.rs:2461-2475 | A node that committed by an entry of a later term and therefore answers an old leader with its commit index blocks that leader from committing there |
| ReadMoves.ReleasedAnswers | raft-rs/src/raft.rs:1862-1875 | Every read released with a confirmed one has an index that some leader's count committed and that covers every commit index of the moment the confirmed context was first taken on, and of its own moment if no context was taken on again |
| Cluster.NextInv | raft-rs/src/raft.rs:1333-1523 | Every step of the cluster keeps the invariant and only extends the history |
| Cluster.RunExplained | raft-rs/src/raft.rs:1333-1523 | Every run has a history that explains all its states |
| Examples.SingleVoterRun | raft-rs/src/raft.rs:1270-1316 | Such runs exist: a single voter elects itself, commits its first entry once persisted, and answers a read with its index |
| Examples.RefusedRun | raft-rs/src/raft.rs:1471-1515 | A run in which the pre-vote request of the voter with the lower priority makes the other one, still in term zero, fail |
| Examples.PipelineStarts | raft-rs/src/raw_node.rs:388-407 | and a pipeline starts from any store, also one that holds a snapshot, with the applied index left at zero or set to a committed one |
| RaftClass.Raft.Step | raft-rs/src/raft.rs:1333-1523 | The updates in place of step and of every handler it calls, and the messages they push, are those of the step function that VoteAnswers, AppendAnswers, CommitProgress and ReadReplies characterize and the cluster is built from |
| RaftClass.Raft.ResetMatched | raft-rs/src/raft.rs:995-1024 | The loop over the peers sets every matched index to zero, except the node's own to what is persisted |
| RaftClass.Raft.Requests | raft-rs/src/raft.rs:1270-1316 | The loop over the voters builds one request for each and no other |
| RaftClass.Raft.HasConfChange | raft-rs/src/raft.rs:2183-2226 | The scan finds a membership change exactly when the range holds one |
| RaftClass.Raft.FindConflict | raft-rs/src/raft_log.rs:181-197 | The loop finds what the recursive definition does |
| RaftClass.Raft.FindConflictByTerm | raft-rs/src/raft_log.rs:208-234 | The loop finds what the recursive definition does |
| RaftClass.Raft.RespondAll | raft-rs/src/raft.rs:2863-2878 | The loop answers the released reads in queue order |
| Quorum.CountMajority | raft-rs/src/quorum/majority.rs:130-154 | The counting loop gives the outcome defined by the sets of yes and missing votes |
| Quorum.CountJoint | raft-rs/src/quorum/joint.rs:56-67 | Won needs both halves, lost needs one |
| Quorum.QuorumsMeet | raft-rs/src/quorum/joint.rs:56-67 | Two sets that each decide share an incoming voter |
| Quorum.WonIsQuorum | raft-rs/src/quorum/joint.rs:56-67 | A vote is won exactly when the yes votes contain a majority of each half |
| Quorum.AcksAreQuorum | raft-rs/src/tracker.rs:358-363 | has_quorum holds exactly for sets that contain a majority of each half |
| Quorum.OutcomeIsFinal | raft-rs/src/quorum/majority.rs:130-154 | Won and lost survive every extension of the votes |
| Quorum.PendingIsUndecided | raft-rs/src/quorum/joint.rs:56-67 | A vote is pending exactly when some completion wins and some completion does not |
| Quorum.ElectionIsStable | raft-rs/src/tracker.rs:298-300 | With the first vote of a node kept, a decided election stays decided whatever arrives later |
| CommitIndex.CommittedIndex | raft-rs/src/quorum/majority.rs:70-124 | For non-empty voters: plain, the greatest index a majority acknowledged; by groups, the flag holds exactly when the voters span two non-zero groups, and then the index is the greatest acknowledged by a majority and by two groups; otherwise the plain or the least index. For no voters the largest u64 |
| CommitIndex.SortDescending | raft-rs/src/quorum/majority.rs:94-98 | The in-place sort keeps the multiset and orders it |
| CommitIndex.GroupIndex | raft-rs/src/quorum/majority.rs:102-123 | The scan for a second group decides the grouped index |
| CommitIndex.CommitIsUnique | raft-rs/src/quorum/majority.rs:70-124 | Neither the order of the voter set nor ties in the sort can change the result |
| CommitIndex.JointCommittedIndex | raft-rs/src/quorum/joint.rs:47-51 | The greatest index that every half with voters acknowledged; grouped exactly when every such half spans two groups; without voters the largest u64 |
| CommitIndex.CommitIndexIsCommittable | raft-rs/src/tracker.rs:285-289 | The computed index, plain or grouped, is acknowledged by a quorum, as the cluster runs assume |
| Inflights.Ring.SetCap | raft-rs/src/tracker/inflights.rs:51-83 | Growing keeps the window, unrolling it if it wraps; shrinking waits until the window is empty |
| Inflights.Ring.Add | raft-rs/src/tracker/inflights.rs:92-115 | Appends to the window of a buffer that is not full |
| Inflights.Ring.FreeTo | raft-rs/src/tracker/inflights.rs:118-152 | Drops exactly the longest prefix of values up to the given one, and then takes a waiting capacity if the window is empty |
| Inflights.Ring.FirstLarge | raft-rs/src/tracker/inflights.rs:124-138 | The scan stops at the first larger value |
| Inflights.Ring.FreeFirstOne | raft-rs/src/tracker/inflights.rs:156-161 | Frees at least the first value |
| Inflights.Ring.Reset | raft-rs/src/tracker/inflights.rs:165-170 | Empties the window and takes a waiting capacity |
| Inflights.Ring.MaybeFreeBuffer | raft-rs/src/tracker/inflights.rs:195-201 | Releases memory without a visible effect |
| Inflights.Ring.Full | raft-rs/src/tracker/inflights.rs:87-89 | Full is full of the queue it stands for |
| Inflights.ApplyKeepsOk | raft-rs/src/tracker/inflights.rs:51-170 | Any mix of operations keeps the count within the capacity, and a waiting shrink only on a non-empty window |
| Inflights.FreedKeepsGreater | raft-rs/src/tracker/inflights.rs:118-152 | While values are added in order, freeing keeps exactly the greater ones |
| FlowClasses.Progress.BecomeProbe | raft-rs/src/tracker/progress.rs:94-106 | After a snapshot the peer is probed from behind it |
| FlowClasses.Progress.MaybeUpdate | raft-rs/src/tracker/progress.rs:136-148 | Raises matched and next; says whether matched rose |
| FlowClasses.Progress.MaybeDecrTo | raft-rs/src/tracker/progress.rs:166-204 | A stale rejection changes nothing; a current one lowers next, never below one |
| FlowClasses.Progress.UpdateState | raft-rs/src/tracker/progress.rs:229-241 | A replicating peer advances by what was sent, a probed one pauses |
| FlowClasses.MaybeSendAppend | raft-rs/src/raft.rs:800-858 | Never adds to a full window; the message is the one the sending rule describes |
| FlowClasses.SendAppendAggressively | raft-rs/src/raft.rs:789-793 | Terminates; the messages carry the next entries of the log without a gap, and then nothing more can be sent without an answer |
| FlowClasses.HandleAccepted | raft-rs/src/raft.rs:1782-1801 | The update in place that FlowAnswers.AcceptedExactly characterizes, and whether it brought anything new |
| FlowClasses.HandleRefused | raft-rs/src/raft.rs:1737-1780 | The update in place that FlowAnswers.RefusedExactly characterizes, and whether it was current |
| FlowClasses.HandleHeartbeatAnswer | raft-rs/src/raft.rs:1847-1855 | The update in place that FlowAnswers.HeartbeatAnswerResumes characterizes |
| Flow.SendKeepsOk | raft-rs/src/raft.rs:735-858 | A message is anchored right before the next index with the log's term there, and carries a piece of the log; no full-window panic is possible |
| Flow.SendLessRoom | raft-rs/src/raft.rs:789-793 | Each message sent without an answer uses up room, which is why the loop ends |
| Flow.AcceptedOk | raft-rs/src/raft.rs:1782-1801 | matched only grows, and everything in flight lies behind it |
| Flow.RefusedOk | raft-rs/src/tracker/progress.rs:166-204 | A rejection leaves matched alone and next within bounds |
| Flow.FreeFirstOk | raft-rs/src/raft.rs:1852-1855 | A heartbeat answer frees a slot of a full window |
| FlowAnswers.AcceptedExactly | raft-rs/src/raft.rs:1782-1801 | An acknowledgement that brings something new makes a probed peer replicate and one that has caught up with its snapshot be probed, both afresh from behind it; a replicating one keeps in flight exactly what was sent past it; any other acknowledgement changes at most the next index |
| FlowAnswers.AcceptedResumes | raft-rs/src/tracker/progress.rs:206-213 | After such an answer the peer is not paused, unless its window has no room at all |
| FlowAnswers.RefusedExactly | raft-rs/src/tracker/progress.rs:166-204 | A current rejection makes a replicating peer be probed from behind what it acknowledged, and moves the next index of any other behind the hint, before the rejected index and not below one; a stale one changes nothing |
| FlowAnswers.HeartbeatAnswerResumes | raft-rs/src/raft.rs:1847-1855 | An answer to a heartbeat resumes a probed peer and frees the oldest slots of a full window, and nothing else |
| FlowAnswers.SendsWhatIsDue | raft-rs/src/raft.rs:800-858 | A paused peer is sent nothing; any other gets the entries from its next index on that fit a message, a snapshot where they are compacted, or an empty message where one is wanted, and is then advanced, paused or awaits the snapshot |
| FlowAnswers.PausedExactly | raft-rs/src/tracker/progress.rs:206-213 | Paused are a probed peer that was sent a message, a replicating one with a full window, and one that waits for a snapshot |
| FlowAnswers.ResizedExactly | raft-rs/src/tracker/inflights.rs:51-83 | After a change of capacity a window holds what it held, is full exactly from the new capacity on, and has it once emptied |
| ProbeRuns.HintSound | raft-rs/src/raft.rs:2501-2516 | The follower's hint is never below the longest common prefix |
| ProbeRuns.NextProbeSound | raft-rs/src/raft.rs:1617-1719 | Nor is the index the leader skips to |
| ProbeRuns.RejectionSound | raft-rs/src/raft.rs:1617-1780 | Each current rejection strictly lowers the next index, never to the match point or below, and lowers the probed term unless the next probe succeeds |
| ProbeRuns.FollowerAnswers | raft-rs/src/raft.rs:2461-2520 | A follower rejects a probe exactly when it lies behind the match point |
| ProbeRuns.FindMatchPoint | raft-rs/src/raft.rs:1617-1780 | Probing and rejecting in turn ends exactly at the match point, after at most one more probes than the term it started at |
| ProbeRuns.SendIsAllowed | raft-rs/src/raft.rs:735-751 | Every append the flow control sends is one the cluster runs allow a leader to send |
| ProbeInRuns.ProbingApplies | raft-rs/src/raft.rs:1617-1780 | In every run the logs of an up-to-date leader and of any other node meet the assumptions of the probing argument |
| LogModel.TermRefines | raft-rs/src/raft_log.rs:121-139 | The term lookup over store and tail never fails and agrees with the one log they stand for |
| LogModel.IndexesRefine | raft-rs/src/raft_log.rs:146-163 | First and last index are those of that log |
| LogModel.SliceRefines | raft-rs/src/raft_log.rs:575-622 | A range is read as the limited range of that log, although it is limited in two stages |
| LogModel.LimitInTwoStages | raft-rs/src/util.rs:52-75 | Limiting a prefix first changes nothing |
| LogModel.LimitSizeIsLongest | raft-rs/src/util.rs:52-75 | With entries of positive size, as those of a log are, the result is the longest prefix within the limit, but at least one entry |
| LogRuns.OpSound | raft-rs/src/raft_log.rs:40-57 | Every operation called within its guard succeeds and keeps applied <= min(committed, persisted), persisted < offset and committed <= last index. The guards that repeat a fatal check are discharged over runs: committing from a message in NoPanic.DeliveryFailsExactly, reporting a snapshot in PipelineSafety.NothingFails, applying after advance in PipelineSafety.AdvanceMayApply |
| LogRuns.RunSound | raft-rs/src/raft_log.rs:40-57 | Through every run of operations the cursors keep their order, committed and applied never fall, and no committed entry is rewritten |
| LogRuns.LeaderAppendSound | raft-rs/src/raft_log.rs:357-378 | A leader's append extends the log |
| LogRuns.TakeAppendSound | raft-rs/src/raft_log.rs:248-278 | An append from a leader never fails; if its anchor matches, the log is replaced from the first conflict on and the commit index follows as far as the entries go |
| LogRuns.RestoreSound | raft-rs/src/raft_log.rs:625-646 | Restoring a snapshot keeps the cursor invariant and leaves the log of the snapshot |
| LogRuns.StoreOpsSound | raft-rs/src/log_unstable.rs:95-141 | Writing snapshot and entries to the store and reporting them leaves the log unchanged |
| LogRuns.CursorOpsSound | raft-rs/src/raft_log.rs:497-571 | Committing, applying and persisting move only cursors, and keep their order |
| CursorAnswers.CommitsExactly | raft-rs/src/raft_log.rs:497-509 | maybe_commit moves to the index exactly if it is past the commit index and the log has that term there |
| CursorAnswers.CommitToExactly | raft-rs/src/raft_log.rs:285-299 | commit_to raises the commit index as asked, and fails exactly past the end of the log |
| CursorAnswers.AppliesExactly | raft-rs/src/raft_log.rs:308-323 | applied_to moves to the index, and fails exactly if it goes back or past what is committed and persisted |
| CursorAnswers.PersistsExactly | raft-rs/src/raft_log.rs:512-541 | With no snapshot waiting, maybe_persist moves exactly to an index past the persisted one that has left the tail and has that term in the log |
| CursorAnswers.PersistsSnapExactly | raft-rs/src/raft_log.rs:544-571 | maybe_persist_snap raises the persisted index, and fails exactly if it is not committed or in the tail |
| LogRuns.ConflictFirst | raft-rs/src/raft_log.rs:181-197 | The reported conflict is the first entry whose term differs |
| LogClasses.Limit | raft-rs/src/util.rs:52-75 | The loop keeps the prefix that the definition describes |
| LogClasses.MemStorage.Entries | raft-rs/src/storage.rs:444-476 | A limited range, or compacted |
| LogClasses.MemStorage.Term | raft-rs/src/storage.rs:479-494 | The snapshot's term, an entry's, compacted or unavailable |
| LogClasses.MemStorage.Append | raft-rs/src/storage.rs:322-346 | Overwrites from the first new entry on |
| LogClasses.MemStorage.ApplySnapshot | raft-rs/src/storage.rs:243-260 | Replaces the store, or is out of date |
| LogClasses.UnstableLog.TruncateAndAppend | raft-rs/src/log_unstable.rs:156-177 | Keeps what lies before the new entries; the counted size stays the sum over the entries |
| LogClasses.UnstableLog.StableEntries | raft-rs/src/log_unstable.rs:95-120 | Empties the tail behind its last entry |
| LogClasses.UnstableLog.Restore | raft-rs/src/log_unstable.rs:144-149 | An empty tail behind the snapshot |
| LogClasses.RaftLog.constructor | raft-rs/src/raft_log.rs:78-90 | A log over a store stands for the store's log |
| LogClasses.RaftLog.Term | raft-rs/src/raft_log.rs:121-139 | Never fails; the term in the log it stands for |
| LogClasses.RaftLog.FindConflict | raft-rs/src/raft_log.rs:181-197 | The loop finds the first conflict |
| LogClasses.RaftLog.FindConflictByTerm | raft-rs/src/raft_log.rs:208-234 | The greatest index up to the given one whose term is at most the given one |
| LogClasses.RaftLog.Append | raft-rs/src/raft_log.rs:357-378 | Extends the log and keeps the cursor invariant |
| LogClasses.RaftLog.MaybeAppend | raft-rs/src/raft_log.rs:248-278 | None on a mismatch, otherwise the conflict and the last new index; keeps the cursor invariant |
| LogClasses.RaftLog.CommitTo | raft-rs/src/raft_log.rs:285-299 | The commit index never falls |
| LogClasses.RaftLog.MaybeCommit | raft-rs/src/raft_log.rs:497-509 | Commits only an index of the given term, and says whether it did |
| LogClasses.RaftLog.AppliedTo | raft-rs/src/raft_log.rs:308-323 | Stays between the old applied index and what is committed and persisted |
| LogClasses.RaftLog.MaybePersist | raft-rs/src/raft_log.rs:512-541 | Moves only to an index that left the tail and is stored with that term |
| LogClasses.RaftLog.MaybePersistSnap | raft-rs/src/raft_log.rs:544-571 | Moves to a snapshot that is committed and lies before the tail |
| LogClasses.RaftLog.Restore | raft-rs/src/raft_log.rs:625-646 | The log is that of the snapshot |
| LogClasses.RaftLog.StableSnap | raft-rs/src/raft_log.rs:337-339 | Leaves the log unchanged |
| LogClasses.RaftLog.StableEntries | raft-rs/src/raft_log.rs:332-334 | Leaves the log unchanged |
| LogClasses.RaftLog.Slice | raft-rs/src/raft_log.rs:575-622 | Reads the store's part, then the tail's |
| LogClasses.RaftLog.NextEntriesSince | raft-rs/src/raft_log.rs:422-437 | The next page of committed and persisted entries |
| NodeLog.AppendFromAgrees | raft-rs/src/raft_log.rs:248-278 | The log of the step function and the log of store and tail take over entries alike and fail in the same cases |
| NodeLog.CommitsAgree | raft-rs/src/raft_log.rs:285-299 | and commit alike, |
| NodeLog.HandleAppendAgrees | raft-rs/src/raft.rs:2461-2520 | Handling an append is maybe_append on the log of store and tail: both fail alike, logs and cursors stay equal, and the answer acknowledges the last new index exactly if the anchor matches; |
| NodeLog.LeaderAppendAgrees | raft-rs/src/raft_log.rs:357-378 | take a leader's new entries at their end alike, |
| NodeLog.ConflictByTermAgrees | raft-rs/src/raft_log.rs:208-234 | find the same index when they search by term, the greatest one up to the start whose term is at most the given one, |
| NodeLog.PersistAgrees | raft-rs/src/raft_log.rs:512-541 | and move the persisted index alike |
| PipelineSafety.ReadyStream | raft-rs/src/raw_node.rs:534-554 | In every run of ready, write, advance, sync or async, the entries handed out have consecutive indexes without gap or repeat from the last snapshot on, were committed and persisted, and are still in the log later unless a snapshot replaced them |
| PipelineSafety.EmptyPageMeansDone | raft-rs/src/raw_node.rs:534-554 | Paging loses nothing: a page is empty only when everything committed and persisted was handed out |
| PipelineSafety.NothingFails | raft-rs/src/raw_node.rs:564-636 | No assertion of ready, advance and persist fails in any run: on the ready number, on the next index, on the commit index and hard state, on the size counter; that a node which wins an election has persisted its log and left nothing in its records is assumed |
| PipelineSafety.HandedIsForever | raft-rs/src/raw_node.rs:603-621 | What was handed out is never taken back |
| PipelineSafety.AdvanceMayApply | raft-rs/src/raw_node.rs:759-764 | After a synchronous advance everything handed out before it may be applied |
| PipelineSafety.UncommittedConserved | raft-rs/src/raft.rs:118-160 | On every leader with a finite limit the counted size is that of the log's data after both the tail it was elected with and what was handed out |
| PipelineSafety.BatchAppendedExactly | raft-rs/src/raft.rs:118-138 | In every run a readable batch is appended to the leader's log as a whole, except exactly when it has data, some proposed data in the log is neither handed out nor older than the election, and both together pass the limit; then the log stays as it is |
| PipelineSafety.BatchSurvives | raft-rs/src/raft.rs:2052-2109 | In every run the log of a leader after a batch holds, behind what it held, each proposal that is no membership change as it was proposed, of the changes only the first that fits the configuration and only if none is pending, and an empty normal entry for each other; that index is recorded; a batch that cannot be read or is too big leaves the log as it was |
| PipelineSafety.FittingBatchAppended | raft-rs/src/raft.rs:118-138 | So a batch is never refused while no such data is open, nor while its data fits into what the limit leaves |
| PipelineSafety.EmptyEntriesAppended | raft-rs/src/raft.rs:1204-1255 | A new leader's empty entry and the automatic change out of a joint configuration are appended in every run, whatever the limit |
| PipelineSafety.OnePendingChange | raft-rs/src/raft.rs:2052-2109 | On every leader an unapplied membership change lies at or before the recorded index, and one of its own term is the only unapplied one |
| PipelineEvents.ScreenPasses | raft-rs/src/raft.rs:2052-2096 | In a batch at most one membership change passes, only if none is unapplied, and it is recorded at its own index; which one is Screening.ScreenIs |
| Screening.ScreenIs | raft-rs/src/raft.rs:2052-2096 | The scan keeps what is no membership change and, if none is pending, the first change that leaves a joint configuration inside one, or is not such a change outside one; every other change becomes an empty normal entry |
| Screening.ScreenedIs | raft-rs/src/raft.rs:2052-2096 | The same for a batch of which only a first part can be read |
| PipelineAnswers.ReadySays | raft-rs/src/raw_node.rs:564-636 | In every run a ready has the next number, the hard state exactly if it changed, the tail's snapshot and entries, and as committed entries the longest page of what is committed, persisted and not handed out, or none with a snapshot |
| PipelineAnswers.ReadyCarriesLog | raft-rs/src/raw_node.rs:564-636 | In every run writing a ready's snapshot and entries to the store makes it hold exactly the node's log |
| PipelineAnswers.WinSays | raft-rs/src/raft.rs:1204-1255 | A node that wins records the end of its log as the tail that does not count and as the index up to which a membership change may be unapplied, and counts nothing yet |
| PipelineAnswers.ApplySays | raft-rs/src/raft.rs:966-992 | Reporting what was applied moves the applied index and nothing else, unless a joint configuration is to be left now: then the change that leaves it is appended and recorded |
| PersistProgress.EverythingPersisted | raft-rs/src/raw_node.rs:722-792 | In every run of a node that starts with its store persisted, a synchronous advance, and the report of the last ready, leaves the whole log persisted |
| PersistProgress.AdvanceHandsOut | raft-rs/src/raw_node.rs:774-792 | A synchronous advance hands out the next page of what is committed then |
| PersistProgress.CommittedReachesApplication | raft-rs/src/raw_node.rs:534-554 | So a synchronous advance that hands out nothing leaves nothing committed that the application has not got |
| PersistProgress.PersistedOnlyReported | raft-rs/src/raw_node.rs:722-748 | A report makes persisted only an index that a ready up to the reported number asked to write |
| PersistProgress.ReportPersists | raft-rs/src/raw_node.rs:722-748 | The last entry that the readies up to the reported number asked to write becomes persisted if it has left the tail and the log has its term there; a leader then commits the computed index if it is of its term |
| ReadyEvents.LeaveJointGood | raft-rs/src/raft.rs:966-992 | The automatic change out of a joint configuration is never refused and is again the only pending one |
| ReadyEvents.WriteAllSound | raft-rs/src/raw_node.rs:564-636 | Everything a ready asks for can be written, after which store and tail agree |
| ReadyEvents.CommitReadySound | raft-rs/src/raw_node.rs:693-709 | Reporting a written ready empties the tail and leaves the log as it is |
| ReadyEvents.PopFindsSnap | raft-rs/src/raw_node.rs:722-748 | Popping the records reports the last snapshot among them |
| ReadyEvents.OnPersistSound | raft-rs/src/raw_node.rs:722-748 | Reporting persistence in any order of numbers keeps the invariant |
| RawNodeClass.RawNode.ReduceUncommitted | raft-rs/src/raft.rs:140-160 | Subtracts the data behind the tail the leader was elected with |
| RawNodeClass.RawNode.AppendEntry | raft-rs/src/raft.rs:1030-1044 | Stamps and appends all entries or none |
| RawNodeClass.RawNode.ProposeBatch | raft-rs/src/raft.rs:2052-2109 | If it succeeds, the log has behind what it had all that is no membership change as proposed and the one change that fits if none is pending, recorded at its index, the others being empty entries; if not, the log is as it was |
| RawNodeClass.RawNode.ScreenBatch | raft-rs/src/raft.rs:2052-2096 | The loop keeps what is no membership change and the first change that fits if none is pending, and empties the others, up to the first that cannot be read |
| RawNodeClass.RawNode.Apply | raft-rs/src/raft.rs:966-992 | Applies, and proposes to leave a joint configuration when due |
| RawNodeClass.RawNode.TakeLight | raft-rs/src/raw_node.rs:534-554 | Hands out the next page and remembers where it ended |
| RawNodeClass.RawNode.TakeReady | raft-rs/src/raw_node.rs:564-636 | Describes the tail, records it and hands out the next page |
| RawNodeClass.RawNode.ReportWritten | raft-rs/src/raw_node.rs:693-709 | Clears the reported snapshot and entries from the tail |
| RawNodeClass.RawNode.PopRecords | raft-rs/src/raw_node.rs:722-741 | The loop pops what the definition does |
| RawNodeClass.RawNode.OnPersistReady | raft-rs/src/raw_node.rs:722-748 | Moves the persisted index, and the commit index of a leader |
| RawNodeClass.RawNode.AdvanceAppend | raft-rs/src/raw_node.rs:774-792 | Reports the ready, then hands out what became committed |
| ConfChange.ContainsIsReplay | raft-rs/src/confchange/changer.rs:27-33 | The lookup in the change log agrees with the map it is later replayed on |
| ConfChange.ReplayKeeps | raft-rs/src/tracker.rs:371-388 | A peer without a recorded change keeps its progress |
| ConfChange.ApplyOneOk | raft-rs/src/confchange/changer.rs:162-266 | Every single change keeps the stronger invariant and gives the peer the role it asks for, known or not |
| ConfChange.EnterJointExactly | raft-rs/src/confchange/changer.rs:66-89 | Entering a joint configuration fails exactly for its three explicit reasons, and otherwise keeps the old voters as the outgoing half |
| ConfChange.SimpleExactly | raft-rs/src/confchange/changer.rs:135-157 | A simple change fails exactly for its three explicit reasons |
| ConfChange.LeaveKeeps | raft-rs/src/confchange/changer.rs:104-129 | Leaving a joint configuration passes all checks |
| ConfChange.AcceptedKeepsOk | raft-rs/src/confchange/changer.rs:66-157 | Every accepted change keeps progress keys equal to voters and learners, learners apart from voters, and staged learners among the outgoing voters only |
| ConfChange.ReachableOk | raft-rs/src/confchange/changer.rs:66-157 | That holds in every tracker reached from the empty one |
| ConfChange.NeverInconsistent | raft-rs/src/confchange/changer.rs:285-355 | check_invariants never rejects in a reachable tracker |
| ConfChange.QuorumsOverlapAcross | raft-rs/src/confchange/changer.rs:82-157 | Across every accepted change from a configuration with a voter, a deciding set before and one after share a member |
| ConfChange.WinnersOverlapAcross | raft-rs/src/quorum/joint.rs:56-67 | So do the yes votes of elections won before and after |
| ConfTargets.LastChangeDecides | raft-rs/src/confchange/changer.rs:162-266 | The last change of a peer decides whether it is a voter, a learner, staged, or neither; a peer without a change keeps its role, and the outgoing voters stay |
| ConfTargets.JointReachesTarget | raft-rs/src/confchange/changer.rs:66-129 | Entering a joint configuration and leaving it again gives exactly the configuration in which all changes were made at once, with progress for its voters and learners; in between the old voters are the outgoing half |
| ConfTargets.SimpleReachesTarget | raft-rs/src/confchange/changer.rs:135-157 | A simple change gives it in one step |
| ConfTargets.ReplayExactly | raft-rs/src/tracker.rs:371-388 | A peer added last starts afresh from the given next index, one removed last has no progress, any other keeps its own |
| Restore.ConfStateEqIsSameConf | raft-rs/proto/src/confstate.rs:5-40 | conf_state_eq holds exactly for states of the same configuration |
| Restore.RestoreRoundTrip | raft-rs/src/confchange/restore.rs:91-107 | Restoring the written state of any reachable configuration, in any order of its lists, succeeds and gives the same configuration and progress keys |
| Restore.JointEffect | raft-rs/src/confchange/restore.rs:14-85 | The incoming changes rebuild a joint configuration, with its learners and staged learners |
| ConfClasses.Changer.Contains | raft-rs/src/confchange/changer.rs:27-33 | The backward search finds the last change |
| ConfClasses.Changer.MakeVoter | raft-rs/src/confchange/changer.rs:188-197 | A known peer loses its learner roles, an unknown one gets a progress |
| ConfClasses.Changer.MakeLearner | raft-rs/src/confchange/changer.rs:210-234 | An outgoing voter is staged |
| ConfClasses.Changer.Remove | raft-rs/src/confchange/changer.rs:237-250 | An outgoing voter keeps its progress |
| ConfClasses.Changer.Apply | raft-rs/src/confchange/changer.rs:162-185 | All changes in order; fails if no voter is left |
| ConfClasses.Changer.Leave | raft-rs/src/confchange/changer.rs:111-126 | Drops the progress of exactly the outgoing voters without another role |
| ConfClasses.ProgressTracker.EnterJoint | raft-rs/src/confchange/changer.rs:66-89 | Copying, changing and checking in place gives the same configuration, change log or error as the value-level change that EnterJointExactly characterizes |
| ConfClasses.ProgressTracker.LeaveJoint | raft-rs/src/confchange/changer.rs:104-129 | Refused when not joint; accepted on every reachable joint tracker, with the outgoing half dropped, staged learners made learners, and the right removals |
| ConfClasses.ProgressTracker.Simple | raft-rs/src/confchange/changer.rs:135-157 | The same for a simple change, which SimpleExactly characterizes |
| ConfClasses.ProgressTracker.ApplyConf | raft-rs/src/tracker.rs:371-388 | Replays the change log in order |
| ConfClasses.ProgressTracker.ResetVotes | raft-rs/src/tracker.rs:292-294 | Clears the votes and nothing else |
| ConfClasses.ProgressTracker.RecordVote | raft-rs/src/tracker.rs:298-300 | The first vote of a node counts |
| ConfClasses.ProgressTracker.TallyVotes | raft-rs/src/tracker.rs:304-322 | Counts the votes of current voters only |
| ConfClasses.BuildChanges | raft-rs/src/confchange/restore.rs:14-85 | The loops push the changes in the defined order |
| ConfClasses.RestoreTracker | raft-rs/src/confchange/restore.rs:91-107 | Applies them until one fails |
| ReadClass.ReadOnly.AddRequest | raft-rs/src/read_only.rs:86-99 | A context that is pending already changes nothing |
| ReadClass.ReadOnly.RecvAck | raft-rs/src/read_only.rs:104-109 | Adds the acknowledgement and returns all of them |
| ReadClass.ReadOnly.Advance | raft-rs/src/read_only.rs:114-129 | Dequeues every request up to the given one in order; queue and map agree, so the fatal check never fires |
| ReadClass.ReadOnly.LastPendingCtx | raft-rs/src/read_only.rs:132-134 | The context of the latest queued request, if any |
| ReadQueue.AdvanceKeepsOk | raft-rs/src/read_only.rs:114-129 | Queue and map hold the same contexts afterwards |

## Left out

- Integers are unbounded. u64 matters only as the "no limit" values of the commit index and of the size limits, which are modelled.
- Membership changes in the cluster: its configuration is fixed and has a voter. What one accepted change preserves is proved in `ConfChange`.
- Snapshots in the cluster: its nodes keep their whole log. `LogModel`, `Flow` and `Pipeline` model snapshots; `handle_snapshot` and `Raft::restore` are not modelled, beyond their guard that a snapshot whose index and term the log already has is not restored, so that a restored one lies past the log's base (raft-rs/src/raft.rs:2573-2672).
- Crash and restart, and durability of asynchronous writes. A vote request leaves a candidate only when its log is persisted; the other messages of a node that does not lead may leave earlier than the program lets them. A candidate that wins has had its records reported as persisted.
- Batched appends (`batch_append`), `RawNode::bootstrap`, `Ready::new`, `ready_without_accept`, `accept_ready`, follower-requested snapshots, `MemStorage::snapshot`, `MemStorageCore::compact`, asynchronous fetching of entries.
- Time: ticks, election timeouts, check-quorum and leases. A timeout may happen at any time; a leader may step down at any time, unless it is a quorum by itself; a message ignored because of a lease is one that was lost.
- Leader transfer: `MsgTimeoutNow` is a timeout without pre-vote. Only voters campaign.
- Lease-based reads, and forwarding of proposals by followers (`MsgPropose` from another node).
- Soft state other than whether the node leads, read states and messages of a ready; `must_sync`; `has_ready`.
- `post_conf_change`, progress groups, `quorum_recently_active`, status, errors, logging and the protobuf encoding; the serialized size of an entry is a parameter.
- `node.rs`, `async_ch.rs`, the `harness` crate, the client and the server.
- RaftClass.Raft.Step: keeps the log as a sequence instead of holding a `RaftLog` object, its messages as a set instead of a list, and takes the computed commit index as an argument; `NodeLog` and `CommitIndex` connect these. The check in `hup` for unapplied membership changes, which only prevents campaigns, is not made; the progress of the peers beyond their matched index is in `Flow` and `FlowClasses` and the recorded membership change in `Pipeline`; `OnPersist` takes an index that is persisted, and the check against the store is in `LogClasses.RaftLog.MaybePersist`.
- RawNodeClass.RawNode.TakeReady: does not hand out messages, read states or soft state.
- PipelineSafety.NothingFails: assumes of a node that wins an election what the rule on vote requests leaving only after a ready is persisted is for: that its log is persisted and its records hold no entry and no snapshot.
- RawNodeClass.RawNode.AdvanceAppend: does not check that a node which does not lead has no new messages, since messages are not part of the pipeline.
- ReadOnce.ClientReadsLinearizable: asks that no forwarded read is delivered again, which the crate does not arrange itself; `StaleReads.StaleRun` shows that it cannot be dropped.
- FlowClasses.Progress.MaybeDecrTo: without the request for a snapshot that a rejection may carry.
- ProbeRuns.FindMatchPoint: counts probes by terms, and starts from an index within the leader's log; that stale rejections change nothing is `FlowClasses.Progress.MaybeDecrTo`.
- CommitIndex.SortDescending: is an insertion sort in place of the library's sort.
