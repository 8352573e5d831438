/** Weighted, risk-adjusted voting with reputation feedback. */
module QuorumVoting {
  datatype Vote = ForIt | Against | Abstain

  /** A voter as a value, for specifications. */
  datatype Voter = Voter(name: string, scope: seq<string>, confidence: real, reputation: real)

  datatype Settings = Settings(quorum: real, baseApproval: real, gain: real, loss: real)

  function Weight(v: Voter): real {
    if v.confidence * v.reputation > 0.0 then v.confidence * v.reputation else 0.0
  }

  function Decide(v: Voter, action: string, risk: real): Vote {
    if action !in v.scope then Abstain
    else if v.confidence > risk then ForIt
    else if v.confidence < risk * 0.5 then Against
    else Abstain
  }

  function Eligible(voters: seq<Voter>, action: string): seq<Voter> {
    if voters == [] then [] else
      var last := voters[|voters| - 1];
      Eligible(voters[..|voters| - 1], action) + if action in last.scope then [last] else []
  }

  function Sign(v: Vote): real {
    match v
    case ForIt => 1.0
    case Against => -1.0
    case Abstain => 0.0
  }

  function NetYes(voters: seq<Voter>, action: string, risk: real): real {
    if voters == [] then 0.0 else
      var last := voters[|voters| - 1];
      NetYes(voters[..|voters| - 1], action, risk) + Sign(Decide(last, action, risk)) * Weight(last)
  }

  function TotalWeight(voters: seq<Voter>): real {
    if voters == [] then 0.0 else TotalWeight(voters[..|voters| - 1]) + Weight(voters[|voters| - 1])
  }

  function Threshold(s: Settings, risk: real): real {
    if s.baseApproval + risk * 0.25 < 0.95 then s.baseApproval + risk * 0.25 else 0.95
  }

  /** Truncation toward zero. */
  function Truncate(x: real): int {
    if x >= 0.0 then x.Floor else -((-x).Floor)
  }

  function QuorumRequired(s: Settings, voters: nat): int {
    var n := Truncate(voters as real * s.quorum);
    if n > 1 then n else 1
  }

  datatype Ballot = Ballot(voter: string, vote: Vote, weight: real)

  datatype Decision = Decision(approved: bool, score: real, threshold: real, ballots: seq<Ballot>, reason: string)

  function Ballots(voters: seq<Voter>, action: string, risk: real): seq<Ballot> {
    seq(|voters|, i requires 0 <= i < |voters| =>
      Ballot(voters[i].name, Decide(voters[i], action, risk), Weight(voters[i])))
  }

  function Score(eligible: seq<Voter>, action: string, risk: real): real {
    if TotalWeight(eligible) == 0.0 then 0.0 else NetYes(eligible, action, risk) / TotalWeight(eligible)
  }

  /** The vote proper was held: somebody may vote and they make a quorum. */
  predicate Held(s: Settings, voters: seq<Voter>, action: string) {
    var eligible := Eligible(voters, action);
    eligible != [] && |eligible| >= QuorumRequired(s, |voters|)
  }

  function Outcome(s: Settings, voters: seq<Voter>, action: string, risk: real): Decision {
    var eligible := Eligible(voters, action);
    if eligible == [] then Decision(false, 0.0, 0.0, [], "no_eligible_voters")
    else if |eligible| < QuorumRequired(s, |voters|) then Decision(false, 0.0, 0.0, [], "quorum_not_met")
    else
      var score := Score(eligible, action, risk);
      Decision(score >= Threshold(s, risk), score, Threshold(s, risk), Ballots(eligible, action, risk), "")
  }

  // ----- approval is antitone in risk -----

  lemma {:induction false} WeightIsNonNegative(v: Voter)
    ensures Weight(v) >= 0.0
    ensures v.confidence < 0.0 && v.reputation >= 0.0 ==> Weight(v) == 0.0
  {
  }

  /** A voter who supports or tolerates a risk does so for any lower one. */
  lemma {:induction false} DecideAntitone(v: Voter, action: string, low: real, high: real)
    requires low <= high && (0.0 <= low || v.confidence >= 0.0)
    ensures Sign(Decide(v, action, low)) >= Sign(Decide(v, action, high))
  {
  }

  lemma {:induction false} NetYesAntitone(voters: seq<Voter>, action: string, low: real, high: real)
    requires low <= high
    requires 0.0 <= low || forall v | v in voters :: v.reputation >= 0.0
    ensures NetYes(voters, action, low) >= NetYes(voters, action, high)
  {
    if voters != [] {
      var last := voters[|voters| - 1];
      NetYesAntitone(voters[..|voters| - 1], action, low, high);
      WeightIsNonNegative(last);
      assert last in voters;
      if 0.0 <= low || last.confidence >= 0.0 {
        DecideAntitone(last, action, low, high);
        Scales(Sign(Decide(last, action, high)), Sign(Decide(last, action, low)), Weight(last));
      }
    }
  }

  lemma {:induction false} Scales(a: real, b: real, w: real)
    requires a <= b && w >= 0.0
    ensures a * w <= b * w
  {
    assert (b - a) * w >= 0.0;
  }

  lemma {:induction false} Divides(a: real, b: real, w: real)
    requires a <= b && w > 0.0
    ensures a / w <= b / w
  {
    assert b / w - a / w == (b - a) / w;
  }

  lemma {:induction false} OverItself(w: real)
    requires w != 0.0
    ensures w / w == 1.0 && -w / w == -1.0
  {
    assert -w / w == -(w / w);
  }

  lemma {:induction false} NetYesBounds(voters: seq<Voter>, action: string, risk: real)
    ensures -TotalWeight(voters) <= NetYes(voters, action, risk) <= TotalWeight(voters)
    ensures TotalWeight(voters) >= 0.0
  {
    if voters != [] {
      NetYesBounds(voters[..|voters| - 1], action, risk);
      WeightIsNonNegative(voters[|voters| - 1]);
    }
  }

  lemma {:induction false} EligibleMembers(voters: seq<Voter>, action: string)
    ensures forall v :: v in Eligible(voters, action) <==> v in voters && action in v.scope
  {
    if voters != [] {
      EligibleMembers(voters[..|voters| - 1], action);
      assert voters == voters[..|voters| - 1] + [voters[|voters| - 1]];
    }
  }

  /** For fixed voters, what is approved at some risk is approved at any lower
      one.  Risks may be negative as long as reputations are not. */
  lemma {:induction false} ApprovalAntitone(s: Settings, voters: seq<Voter>, action: string, low: real, high: real)
    requires low <= high
    requires 0.0 <= low || forall v | v in voters :: v.reputation >= 0.0
    requires Outcome(s, voters, action, high).approved
    ensures Outcome(s, voters, action, low).approved
    ensures Outcome(s, voters, action, low).score >= Outcome(s, voters, action, high).score
  {
    var eligible := Eligible(voters, action);
    EligibleMembers(voters, action);
    NetYesAntitone(eligible, action, low, high);
    NetYesBounds(eligible, action, high);
    if TotalWeight(eligible) != 0.0 {
      Divides(NetYes(eligible, action, high), NetYes(eligible, action, low), TotalWeight(eligible));
    }
  }

  /** The score is a weighted mean of +1, 0 and -1. */
  lemma {:induction false} ScoreBounds(s: Settings, voters: seq<Voter>, action: string, risk: real)
    ensures -1.0 <= Outcome(s, voters, action, risk).score <= 1.0
    ensures Outcome(s, voters, action, risk).threshold <= 0.95
  {
    var eligible := Eligible(voters, action);
    NetYesBounds(eligible, action, risk);
    var w := TotalWeight(eligible);
    if w != 0.0 {
      Divides(NetYes(eligible, action, risk), w, w);
      Divides(-w, NetYes(eligible, action, risk), w);
      OverItself(w);
    }
  }

  lemma {:induction false} SomebodyIsForIt(voters: seq<Voter>, action: string, risk: real)
    requires NetYes(voters, action, risk) > 0.0
    ensures exists v :: v in voters && Decide(v, action, risk) == ForIt && Weight(v) > 0.0
  {
    var last := voters[|voters| - 1];
    if Decide(last, action, risk) != ForIt || Weight(last) == 0.0 {
      WeightIsNonNegative(last);
      SomebodyIsForIt(voters[..|voters| - 1], action, risk);
    }
  }

  lemma {:induction false} PositiveQuotient(n: real, w: real)
    requires w > 0.0 && n / w > 0.0
    ensures n > 0.0
  {
    assert n == (n / w) * w;
  }

  /** The quorum is the configured share in whole voters, rounded down, but one
      at least. */
  lemma {:induction false} QuorumIsTheShare(s: Settings, voters: nat)
    ensures var share, n := voters as real * s.quorum, QuorumRequired(s, voters);
            n >= 1 && share - 1.0 < n as real && (n == 1 || n as real <= share)
  {
  }

  /** Nothing is approved without a quorum of voters entitled to the action. */
  lemma {:induction false} ApprovalNeedsQuorum(s: Settings, voters: seq<Voter>, action: string, risk: real)
    requires Outcome(s, voters, action, risk).approved
    ensures |Eligible(voters, action)| >= QuorumRequired(s, |voters|) >= 1
    ensures forall v :: v in Eligible(voters, action) <==> v in voters && action in v.scope
  {
    EligibleMembers(voters, action);
  }

  /** Under a positive threshold nothing is approved without one of them being
      for it with weight. */
  lemma {:induction false} ApprovalNeedsSupport(s: Settings, voters: seq<Voter>, action: string, risk: real)
    requires Outcome(s, voters, action, risk).approved && Threshold(s, risk) > 0.0
    ensures exists v :: v in voters && action in v.scope && v.confidence > risk && Weight(v) > 0.0
  {
    var entitled := Eligible(voters, action);
    EligibleMembers(voters, action);
    NetYesBounds(entitled, action, risk);
    PositiveQuotient(NetYes(entitled, action, risk), TotalWeight(entitled));
    SomebodyIsForIt(entitled, action, risk);
  }

  // ----- reputation -----

  function Rewarded(s: Settings, reputation: real, aligned: bool): real {
    if aligned then
      (if reputation + s.gain < 2.0 then reputation + s.gain else 2.0)
    else
      (if reputation - s.loss > 0.1 then reputation - s.loss else 0.1)
  }

  /** Feedback goes to the first voter of that name. */
  function Adjust(s: Settings, voters: seq<Voter>, b: Ballot, result: bool): seq<Voter> {
    if voters == [] then []
    else if voters[0].name == b.voter then
      [voters[0].(reputation := Rewarded(s, voters[0].reputation, (b.vote == ForIt) == result))] + voters[1..]
    else [voters[0]] + Adjust(s, voters[1..], b, result)
  }

  lemma {:induction false} AdjustAt(s: Settings, voters: seq<Voter>, b: Ballot, result: bool, i: nat)
    requires i < |voters| && voters[i].name == b.voter
    requires forall j | 0 <= j < i :: voters[j].name != b.voter
    ensures Adjust(s, voters, b, result) ==
            voters[i := voters[i].(reputation := Rewarded(s, voters[i].reputation, (b.vote == ForIt) == result))]
  {
    if i > 0 {
      AdjustAt(s, voters[1..], b, result, i - 1);
    }
  }

  lemma {:induction false} AdjustNone(s: Settings, voters: seq<Voter>, b: Ballot, result: bool)
    requires forall j | 0 <= j < |voters| :: voters[j].name != b.voter
    ensures Adjust(s, voters, b, result) == voters
  {
    if voters != [] {
      AdjustNone(s, voters[1..], b, result);
    }
  }

  function Update(s: Settings, voters: seq<Voter>, ballots: seq<Ballot>, result: bool, n: nat): seq<Voter>
    requires n <= |ballots|
  {
    if n == 0 then voters else
      var before := Update(s, voters, ballots, result, n - 1);
      if ballots[n - 1].vote == Abstain then before else Adjust(s, before, ballots[n - 1], result)
  }

  /** The panel after one vote. */
  function AfterVote(s: Settings, voters: seq<Voter>, action: string, risk: real): seq<Voter> {
    var d := Outcome(s, voters, action, risk);
    if Held(s, voters, action) then Update(s, voters, d.ballots, d.approved, |d.ballots|) else voters
  }

  datatype Motion = Motion(action: string, risk: real)

  function AfterVotes(s: Settings, voters: seq<Voter>, motions: seq<Motion>): seq<Voter> {
    if motions == [] then voters else
      var m := motions[|motions| - 1];
      AfterVote(s, AfterVotes(s, voters, motions[..|motions| - 1]), m.action, m.risk)
  }

  ghost predicate InBounds(voters: seq<Voter>) {
    forall i | 0 <= i < |voters| :: 0.1 <= voters[i].reputation <= 2.0
  }

  /** Only reputations change. */
  ghost predicate SamePanel(a: seq<Voter>, b: seq<Voter>) {
    |a| == |b| && forall i | 0 <= i < |a| :: a[i].(reputation := 0.0) == b[i].(reputation := 0.0)
  }

  lemma {:induction false} AdjustKeepsBounds(s: Settings, voters: seq<Voter>, b: Ballot, result: bool)
    requires s.gain >= 0.0 && s.loss >= 0.0 && InBounds(voters)
    ensures InBounds(Adjust(s, voters, b, result)) && SamePanel(voters, Adjust(s, voters, b, result))
  {
    if voters != [] && voters[0].name != b.voter {
      AdjustKeepsBounds(s, voters[1..], b, result);
    }
  }

  lemma {:induction false} UpdateKeepsBounds(s: Settings, voters: seq<Voter>, ballots: seq<Ballot>,
                                             result: bool, n: nat)
    requires n <= |ballots| && s.gain >= 0.0 && s.loss >= 0.0 && InBounds(voters)
    ensures InBounds(Update(s, voters, ballots, result, n)) && SamePanel(voters, Update(s, voters, ballots, result, n))
  {
    if n > 0 {
      UpdateKeepsBounds(s, voters, ballots, result, n - 1);
      if ballots[n - 1].vote != Abstain {
        AdjustKeepsBounds(s, Update(s, voters, ballots, result, n - 1), ballots[n - 1], result);
      }
    }
  }

  /** Over any sequence of votes every reputation stays between 0.1 and 2, and
      nothing else about the panel changes. */
  lemma {:induction false} ReputationsStayInBounds(s: Settings, voters: seq<Voter>, motions: seq<Motion>)
    requires s.gain >= 0.0 && s.loss >= 0.0 && InBounds(voters)
    ensures InBounds(AfterVotes(s, voters, motions)) && SamePanel(voters, AfterVotes(s, voters, motions))
  {
    if motions != [] {
      var front, m := motions[..|motions| - 1], motions[|motions| - 1];
      ReputationsStayInBounds(s, voters, front);
      var now := AfterVotes(s, voters, front);
      var d := Outcome(s, now, m.action, m.risk);
      UpdateKeepsBounds(s, now, d.ballots, d.approved, |d.ballots|);
    }
  }

  /** So once a panel is in bounds, after any votes approval is antitone in risk
      over all risks, negative ones included. */
  lemma {:induction false} AntitoneAfterAnyVotes(s: Settings, voters: seq<Voter>, motions: seq<Motion>,
                                                 action: string, low: real, high: real)
    requires s.gain >= 0.0 && s.loss >= 0.0 && InBounds(voters) && low <= high
    requires Outcome(s, AfterVotes(s, voters, motions), action, high).approved
    ensures Outcome(s, AfterVotes(s, voters, motions), action, low).approved
  {
    ReputationsStayInBounds(s, voters, motions);
    ApprovalAntitone(s, AfterVotes(s, voters, motions), action, low, high);
  }

  // ----- the voter objects -----

  class VoterAgent {
    const name: string
    const scope: seq<string>
    const confidence: real
    var reputation: real

    constructor (name: string, scope: seq<string>, confidence: real, reputation: real)
      ensures Snap() == Voter(name, scope, confidence, reputation)
    {
      this.name, this.scope, this.confidence, this.reputation := name, scope, confidence, reputation;
    }

    function Snap(): Voter
      reads this
    {
      Voter(name, scope, confidence, reputation)
    }
  }

  function Snaps(agents: seq<VoterAgent>): seq<Voter>
    reads agents
  {
    seq(|agents|, i requires 0 <= i < |agents| reads agents => agents[i].Snap())
  }

  class QuorumVoter {
    const agents: seq<VoterAgent>
    const settings: Settings
    var voteLog: seq<Decision>

    ghost predicate Valid()
      reads this
    {
      forall i, j | 0 <= i < j < |agents| :: agents[i] != agents[j]
    }

    constructor (agents: seq<VoterAgent>, settings: Settings)
      requires forall i, j | 0 <= i < j < |agents| :: agents[i] != agents[j]
      ensures Valid() && this.agents == agents && this.settings == settings && voteLog == []
    {
      this.agents, this.settings, voteLog := agents, settings, [];
    }

    /** Hold a vote: log the decision and let reputations feel it. */
    method HoldVote(action: string, risk: real) returns (d: Decision)
      requires Valid()
      modifies `voteLog, agents
      ensures Valid()
      ensures d == Outcome(settings, old(Snaps(agents)), action, risk)
      ensures voteLog == old(voteLog) + [d]
      ensures Snaps(agents) == AfterVote(settings, old(Snaps(agents)), action, risk)
    {
      var eligible := EligibleAgents(action);
      if eligible == [] {
        d := Decision(false, 0.0, 0.0, [], "no_eligible_voters");
        voteLog := voteLog + [d];
        return;
      }
      if |eligible| < QuorumRequired(settings, |agents|) {
        d := Decision(false, 0.0, 0.0, [], "quorum_not_met");
        voteLog := voteLog + [d];
        return;
      }
      d := Count(eligible, action, risk);
      voteLog := voteLog + [d];
      UpdateReputations(d.ballots, d.approved);
    }

    method EligibleAgents(action: string) returns (eligible: seq<VoterAgent>)
      ensures Snaps(eligible) == Eligible(Snaps(agents), action)
    {
      ghost var panel := Snaps(agents);
      eligible := [];
      for i := 0 to |agents|
        invariant Snaps(eligible) == Eligible(panel[..i], action)
      {
        assert panel[..i + 1][..i] == panel[..i];
        if action in agents[i].scope {
          eligible := eligible + [agents[i]];
        }
      }
      assert panel[..|agents|] == panel;
    }

    method Count(eligible: seq<VoterAgent>, action: string, risk: real) returns (d: Decision)
      ensures var vs := Snaps(eligible);
              var score := Score(vs, action, risk);
              d == Decision(score >= Threshold(settings, risk), score, Threshold(settings, risk),
                Ballots(vs, action, risk), "")
    {
      ghost var vs := Snaps(eligible);
      var yes, total, ballots := 0.0, 0.0, [];
      for i := 0 to |eligible|
        invariant yes == NetYes(vs[..i], action, risk) && total == TotalWeight(vs[..i])
        invariant ballots == Ballots(vs, action, risk)[..i]
      {
        assert vs[..i + 1][..i] == vs[..i];
        var voter := eligible[i].Snap();
        var v, w := Decide(voter, action, risk), Weight(voter);
        if v == ForIt {
          yes := yes + w;
        } else if v == Against {
          yes := yes - w;
        }
        total := total + w;
        ballots := ballots + [Ballot(voter.name, v, w)];
      }
      assert vs[..|eligible|] == vs;
      var score := if total != 0.0 then yes / total else 0.0;
      d := Decision(score >= Threshold(settings, risk), score, Threshold(settings, risk), ballots, "");
    }

    method UpdateReputations(ballots: seq<Ballot>, result: bool)
      requires Valid()
      modifies agents
      ensures Snaps(agents) == Update(settings, old(Snaps(agents)), ballots, result, |ballots|)
    {
      ghost var panel := Snaps(agents);
      for n := 0 to |ballots|
        invariant Snaps(agents) == Update(settings, panel, ballots, result, n)
      {
        if ballots[n].vote != Abstain {
          AdjustFirst(ballots[n], result);
        }
      }
    }

    /** Find the first agent of the ballot's name and adjust it. */
    method AdjustFirst(b: Ballot, result: bool)
      requires Valid() && b.vote != Abstain
      modifies agents
      ensures Snaps(agents) == Adjust(settings, old(Snaps(agents)), b, result)
    {
      ghost var panel := Snaps(agents);
      for i := 0 to |agents|
        invariant Snaps(agents) == panel
        invariant forall j | 0 <= j < i :: panel[j].name != b.voter
      {
        assert Snaps(agents)[i] == agents[i].Snap();
        if agents[i].name == b.voter {
          var aligned := (b.vote == ForIt && result) || (b.vote == Against && !result);
          AdjustAt(settings, panel, b, result, i);
          SetReputation(i, Rewarded(settings, agents[i].reputation, aligned));
          return;
        }
      }
      AdjustNone(settings, panel, b, result);
    }

    method SetReputation(i: nat, r: real)
      requires Valid() && i < |agents|
      modifies agents[i]
      ensures Snaps(agents) == old(Snaps(agents))[i := old(Snaps(agents))[i].(reputation := r)]
    {
      ghost var panel := Snaps(agents);
      agents[i].reputation := r;
      forall j | 0 <= j < |agents|
        ensures Snaps(agents)[j] == panel[i := panel[i].(reputation := r)][j]
      {
        assert j != i ==> agents[j] != agents[i];
      }
    }
  }
}
