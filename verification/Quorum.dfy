/** Majorities, joint majorities and the outcome of a vote
    (raft-rs/src/quorum/majority.rs, raft-rs/src/quorum/joint.rs, raft-rs/src/tracker.rs). */
module Quorum {
  import opened Types

  datatype VoteResult = Pending | Lost | Won

  /** Two majority configurations; decisions need both. An empty half decides nothing by itself. */
  datatype JointConfig = JointConfig(incoming: set<Id>, outgoing: set<Id>)

  type Votes = map<Id, bool>

  function Majority(total: nat): nat {
    total / 2 + 1
  }

  function Voters(cfg: JointConfig): set<Id> {
    cfg.incoming + cfg.outgoing
  }

  predicate IsSingleton(cfg: JointConfig) {
    cfg.outgoing == {} && |cfg.incoming| == 1
  }

  function Yes(voters: set<Id>, votes: Votes): set<Id> {
    set v | v in voters && v in votes && votes[v]
  }

  function Missing(voters: set<Id>, votes: Votes): set<Id> {
    set v | v in voters && v !in votes
  }

  /** The outcome of a vote in one majority configuration. */
  function MajorityVote(voters: set<Id>, votes: Votes): VoteResult {
    if voters == {} then Won
    else if |Yes(voters, votes)| >= Majority(|voters|) then Won
    else if |Yes(voters, votes)| + |Missing(voters, votes)| >= Majority(|voters|) then Pending
    else Lost
  }

  /** The outcome of a vote in a joint configuration: both halves must be won. */
  function JointVote(cfg: JointConfig, votes: Votes): VoteResult {
    var i := MajorityVote(cfg.incoming, votes);
    var o := MajorityVote(cfg.outgoing, votes);
    if i == Won && o == Won then Won
    else if i == Lost || o == Lost then Lost
    else Pending
  }

  /** The first vote of a node is kept; later ones are ignored. */
  function RecordVote(votes: Votes, id: Id, vote: bool): Votes {
    if id in votes then votes else votes[id := vote]
  }

  predicate HasMajority(voters: set<Id>, s: set<Id>) {
    voters == {} || |voters * s| >= Majority(|voters|)
  }

  /** The set `s` alone decides for the joint configuration. */
  predicate IsQuorum(cfg: JointConfig, s: set<Id>) {
    HasMajority(cfg.incoming, s) && HasMajority(cfg.outgoing, s)
  }

  function YesFrom(s: set<Id>): Votes {
    map v | v in s :: true
  }

  // ----- counting the votes with a loop, as `vote_result` of majority.rs does

  lemma CountOne(seen: set<Id>, v: Id, votes: Votes)
    requires v !in seen
    ensures |Yes(seen + {v}, votes)| == |Yes(seen, votes)| + if v in votes && votes[v] then 1 else 0
    ensures |Missing(seen + {v}, votes)| == |Missing(seen, votes)| + if v !in votes then 1 else 0
  {
    if v in votes {
      assert Missing(seen + {v}, votes) == Missing(seen, votes);
      if votes[v] {
        assert Yes(seen + {v}, votes) == Yes(seen, votes) + {v};
      } else {
        assert Yes(seen + {v}, votes) == Yes(seen, votes);
      }
    } else {
      assert Missing(seen + {v}, votes) == Missing(seen, votes) + {v};
      assert Yes(seen + {v}, votes) == Yes(seen, votes);
    }
  }

  method CountMajority(voters: set<Id>, votes: Votes) returns (r: VoteResult)
    ensures r == MajorityVote(voters, votes)
  {
    if voters == {} {
      return Won;
    }
    var yes, missing := CountVotes(voters, votes);
    var q := Majority(|voters|);
    if yes >= q {
      r := Won;
    } else if yes + missing >= q {
      r := Pending;
    } else {
      r := Lost;
    }
  }

  /** How many voters said yes, and how many have not voted. */
  method CountVotes(voters: set<Id>, votes: Votes) returns (yes: nat, missing: nat)
    ensures yes == |Yes(voters, votes)| && missing == |Missing(voters, votes)|
  {
    yes, missing := 0, 0;
    var rest := voters;
    while rest != {}
      invariant rest <= voters
      invariant yes == |Yes(voters - rest, votes)|
      invariant missing == |Missing(voters - rest, votes)|
      decreases |rest|
    {
      var v :| v in rest;
      CountOne(voters - rest, v, votes);
      assert voters - (rest - {v}) == (voters - rest) + {v};
      if v in votes {
        if votes[v] {
          yes := yes + 1;
        }
      } else {
        missing := missing + 1;
      }
      rest := rest - {v};
    }
    assert voters - rest == voters;
  }

  method CountJoint(cfg: JointConfig, votes: Votes) returns (r: VoteResult)
    ensures r == JointVote(cfg, votes)
  {
    var i := CountMajority(cfg.incoming, votes);
    var o := CountMajority(cfg.outgoing, votes);
    if i == Won && o == Won {
      r := Won;
    } else if i == Lost || o == Lost {
      r := Lost;
    } else {
      r := Pending;
    }
  }

  // ----- quorums

  lemma SubsetSize(a: set<Id>, b: set<Id>)
    requires a <= b
    ensures |a| <= |b|
    ensures |a| == |b| ==> a == b
  {
    assert b == a + (b - a);
    assert a !! (b - a);
    assert |b| == |a| + |b - a|;
  }

  /** Two majorities of one set of voters share a voter. */
  lemma MajoritiesMeet(voters: set<Id>, a: set<Id>, b: set<Id>)
    requires voters != {}
    requires HasMajority(voters, a) && HasMajority(voters, b)
    ensures exists v :: v in voters && v in a && v in b
  {
    var x, y := voters * a, voters * b;
    if x * y == {} {
      assert |x + y| == |x| + |y|;
      SubsetSize(x + y, voters);
      assert false;
    }
    var v :| v in x * y;
    assert v in voters && v in a && v in b;
  }

  lemma QuorumsMeet(cfg: JointConfig, a: set<Id>, b: set<Id>) returns (v: Id)
    requires cfg.incoming != {}
    requires IsQuorum(cfg, a) && IsQuorum(cfg, b)
    ensures v in a && v in b && v in cfg.incoming
  {
    MajoritiesMeet(cfg.incoming, a, b);
    v :| v in cfg.incoming && v in a && v in b;
  }

  /** Winning a vote and holding a quorum of yes votes are the same thing. */
  lemma WonIsQuorum(cfg: JointConfig, votes: Votes)
    ensures JointVote(cfg, votes) == Won <==> IsQuorum(cfg, Yes(Voters(cfg), votes))
  {
    var y := Yes(Voters(cfg), votes);
    assert cfg.incoming * y == Yes(cfg.incoming, votes);
    assert cfg.outgoing * y == Yes(cfg.outgoing, votes);
    assert |Missing(cfg.incoming, votes)| >= 0;
  }

  /** `has_quorum` is a vote in which exactly the members of the set say yes. */
  lemma AcksAreQuorum(cfg: JointConfig, s: set<Id>)
    ensures JointVote(cfg, YesFrom(s)) == Won <==> IsQuorum(cfg, s)
  {
    WonIsQuorum(cfg, YesFrom(s));
    assert cfg.incoming * Yes(Voters(cfg), YesFrom(s)) == cfg.incoming * s;
    assert cfg.outgoing * Yes(Voters(cfg), YesFrom(s)) == cfg.outgoing * s;
  }

  // ----- vote results are decisive

  /** `later` keeps every vote recorded in `votes` and may add more. */
  predicate Extends(votes: Votes, later: Votes) {
    forall v :: v in votes ==> v in later && later[v] == votes[v]
  }

  predicate Completes(cfg: JointConfig, votes: Votes, later: Votes) {
    Extends(votes, later) && Voters(cfg) <= later.Keys
  }

  lemma MajorityMonotone(voters: set<Id>, votes: Votes, later: Votes)
    requires Extends(votes, later)
    ensures MajorityVote(voters, votes) != Pending ==> MajorityVote(voters, later) == MajorityVote(voters, votes)
  {
    var y, y', m, m' := Yes(voters, votes), Yes(voters, later), Missing(voters, votes), Missing(voters, later);
    SubsetSize(y, y');
    assert y' + m' <= y + m;
    SubsetSize(y' + m', y + m);
    assert |y' + m'| == |y'| + |m'|;
    assert |y + m| == |y| + |m|;
  }

  /** Won and Lost survive every extension of the recorded votes. */
  lemma OutcomeIsFinal(cfg: JointConfig, votes: Votes, later: Votes)
    requires Extends(votes, later)
    requires JointVote(cfg, votes) != Pending
    ensures JointVote(cfg, later) == JointVote(cfg, votes)
  {
    MajorityMonotone(cfg.incoming, votes, later);
    MajorityMonotone(cfg.outgoing, votes, later);
  }

  function Fill(cfg: JointConfig, votes: Votes, vote: bool): Votes {
    map v | v in Voters(cfg) + votes.Keys :: if v in votes then votes[v] else vote
  }

  lemma FillCounts(cfg: JointConfig, votes: Votes, voters: set<Id>)
    requires voters <= Voters(cfg)
    ensures Yes(voters, Fill(cfg, votes, true)) == Yes(voters, votes) + Missing(voters, votes)
    ensures Yes(voters, Fill(cfg, votes, false)) == Yes(voters, votes)
    ensures forall b :: Missing(voters, Fill(cfg, votes, b)) == {}
  {
  }

  lemma AllNoLoses(cfg: JointConfig, votes: Votes, voters: set<Id>)
    requires voters <= Voters(cfg)
    requires MajorityVote(voters, votes) != Won
    ensures MajorityVote(voters, Fill(cfg, votes, false)) == Lost
  {
    FillCounts(cfg, votes, voters);
  }

  lemma AllYesWins(cfg: JointConfig, votes: Votes, voters: set<Id>)
    requires voters <= Voters(cfg)
    requires MajorityVote(voters, votes) != Lost
    ensures MajorityVote(voters, Fill(cfg, votes, true)) == Won
  {
    FillCounts(cfg, votes, voters);
    assert |Yes(voters, votes) + Missing(voters, votes)| == |Yes(voters, votes)| + |Missing(voters, votes)|;
  }

  lemma PendingCanGoEitherWay(cfg: JointConfig, votes: Votes)
    requires JointVote(cfg, votes) == Pending
    ensures JointVote(cfg, Fill(cfg, votes, true)) == Won
    ensures JointVote(cfg, Fill(cfg, votes, false)) == Lost
  {
    hide MajorityVote;
    AllYesWins(cfg, votes, cfg.incoming);
    AllYesWins(cfg, votes, cfg.outgoing);
    if MajorityVote(cfg.incoming, votes) != Won {
      AllNoLoses(cfg, votes, cfg.incoming);
    } else {
      AllNoLoses(cfg, votes, cfg.outgoing);
    }
  }

  /** Pending means exactly that the missing votes can still decide either way. */
  lemma PendingIsUndecided(cfg: JointConfig, votes: Votes)
    ensures JointVote(cfg, votes) == Pending <==>
            (exists w :: Completes(cfg, votes, w) && JointVote(cfg, w) == Won) &&
            (exists w :: Completes(cfg, votes, w) && JointVote(cfg, w) != Won)
  {
    var w, l := Fill(cfg, votes, true), Fill(cfg, votes, false);
    assert Completes(cfg, votes, w) && Completes(cfg, votes, l);
    hide JointVote, Completes;
    if JointVote(cfg, votes) == Pending {
      PendingCanGoEitherWay(cfg, votes);
    } else {
      forall w | Completes(cfg, votes, w)
        ensures JointVote(cfg, w) == JointVote(cfg, votes)
      {
        CompletionKeepsOutcome(cfg, votes, w);
      }
    }
  }

  lemma CompletionKeepsOutcome(cfg: JointConfig, votes: Votes, w: Votes)
    requires Completes(cfg, votes, w) && JointVote(cfg, votes) != Pending
    ensures JointVote(cfg, w) == JointVote(cfg, votes)
  {
    OutcomeIsFinal(cfg, votes, w);
  }

  function RecordAll(votes: Votes, ballots: seq<(Id, bool)>): Votes
    decreases |ballots|
  {
    if ballots == [] then votes
    else RecordAll(RecordVote(votes, ballots[0].0, ballots[0].1), ballots[1..])
  }

  lemma {:induction false} RecordAllExtends(votes: Votes, ballots: seq<(Id, bool)>)
    ensures Extends(votes, RecordAll(votes, ballots))
    decreases |ballots|
  {
    if ballots != [] {
      RecordAllExtends(RecordVote(votes, ballots[0].0, ballots[0].1), ballots[1..]);
    }
  }

  /** First-vote-wins recording makes a decided election stable, whatever arrives afterwards. */
  lemma ElectionIsStable(cfg: JointConfig, votes: Votes, ballots: seq<(Id, bool)>)
    requires JointVote(cfg, votes) != Pending
    ensures JointVote(cfg, RecordAll(votes, ballots)) == JointVote(cfg, votes)
  {
    RecordAllExtends(votes, ballots);
    OutcomeIsFinal(cfg, votes, RecordAll(votes, ballots));
  }

  /** A singleton configuration is a quorum of its only voter. */
  lemma SingletonQuorum(cfg: JointConfig, s: set<Id>, id: Id)
    requires IsSingleton(cfg) && id in cfg.incoming
    requires IsQuorum(cfg, s)
    ensures id in s
  {
    assert cfg.incoming == {id} by {
      SubsetSize({id}, cfg.incoming);
    }
  }
}
