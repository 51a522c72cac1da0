/**
 The MHTH rating engine, part three (crates/skillratings/src/mhth.rs): matches of
 several ranked teams. Every team is compared with every other team, using the
 team aggregates from before the match; the comparison's score comes from the two
 ranks, and the team's omega and large delta are the sums over its comparisons.
 */
module MhthMultiTeam {
  import opened Numerics
  import opened SkillRatings
  import opened Mhth
  import opened MhthTeams

  /** A team and its placement, as `mhth_multi_team` receives them. */
  type TeamAndRank = (seq<MhthRating>, MultiTeamOutcome)

  /** The score of team one against team two: 1 when team one placed better (a lower rank),
      0.5 on a shared rank, 0 when it placed worse. */
  function RankScore(rankOne: MultiTeamOutcome, rankTwo: MultiTeamOutcome): (score: real)
    ensures score == 1.0 <==> Rank(rankOne) < Rank(rankTwo)
    ensures score == 0.5 <==> rankOne == rankTwo
    ensures score == 0.0 <==> Rank(rankOne) > Rank(rankTwo)
  {
    match Cmp(rankTwo, rankOne)
    case Greater => 1.0
    case Equal => 0.5
    case Less => 0.0
  }

  /** The two-sided outcome that a pair of ranks stands for, from team one's side; its chess
      points are the rank score, and the scores of the two teams sum to 1. */
  function OutcomeOfRanks(rankOne: MultiTeamOutcome, rankTwo: MultiTeamOutcome): (outcome: Outcomes)
    ensures ToChessPoints(outcome) == RankScore(rankOne, rankTwo)
    ensures 1.0 - ToChessPoints(outcome) == RankScore(rankTwo, rankOne)
  {
    if Rank(rankOne) < Rank(rankTwo) then Successful
    else if Rank(rankOne) == Rank(rankTwo) then Draw
    else Failure
  }

  /**
   What one comparison adds to team one's omega and large delta: c from both summed
   variances, p of the two summed skills and the rank score. The large-delta term is never
   negative; the omega term is positive when team one placed better, negative when it
   placed worse, and zero for a tie between equal skills.
   */
  function Contribution(m: Libm, config: MhthConfig, ratingOne: real, uncertaintySqOne: real,
                        rankOne: MultiTeamOutcome, ratingTwo: real, uncertaintySqTwo: real,
                        rankTwo: MultiTeamOutcome)
    : (d: (real, real))
    requires m.Lawful() && ValidConfig(config) && uncertaintySqOne >= 0.0 && uncertaintySqTwo >= 0.0
    ensures d.1 >= 0.0
    ensures uncertaintySqOne > 0.0 ==>
      (Rank(rankOne) < Rank(rankTwo) ==> d.0 > 0.0) && (Rank(rankOne) > Rank(rankTwo) ==> d.0 < 0.0)
    ensures ratingOne == ratingTwo && rankOne == rankTwo ==> d.0 == 0.0
  {
    var c := CValue(m, config, uncertaintySqOne + uncertaintySqTwo);
    var p := PValue(m, ratingOne, ratingTwo, c).0;
    var step := SideStep(m, c, uncertaintySqOne, p, RankScore(rankOne, rankTwo));
    (step.omega, step.largeDelta)
  }

  /** The comparison of team i with team q, on the teams' aggregates before the match. */
  function PairContribution(m: Libm, config: MhthConfig, teams: seq<TeamAndRank>, i: nat, q: nat): (d: (real, real))
    requires m.Lawful() && ValidConfig(config) && i < |teams| && q < |teams|
    ensures d.1 >= 0.0
  {
    Contribution(m, config,
                 TeamRating(teams[i].0), TeamUncertaintySq(teams[i].0), teams[i].1,
                 TeamRating(teams[q].0), TeamUncertaintySq(teams[q].0), teams[q].1)
  }

  /** Team i's comparison with every team, entry q the one with team q. */
  function PairContributions(m: Libm, config: MhthConfig, teams: seq<TeamAndRank>, i: nat): (ds: seq<(real, real)>)
    requires m.Lawful() && ValidConfig(config) && i < |teams|
    ensures |ds| == |teams| && forall q :: 0 <= q < |ds| ==> ds[q].1 >= 0.0
  {
    seq(|teams|, q requires 0 <= q < |teams| => PairContribution(m, config, teams, i, q))
  }

  /** The omega and large-delta terms of the comparisons before index n summed, entry i (the
      team itself) skipped; the large delta is never negative when no term is. */
  function Accumulated(ds: seq<(real, real)>, i: nat, n: nat): (a: (real, real))
    requires n <= |ds|
    ensures (forall q :: 0 <= q < n ==> ds[q].1 >= 0.0) ==> a.1 >= 0.0
  {
    if n == 0 then (0.0, 0.0)
    else
      var previous := Accumulated(ds, i, n - 1);
      if n - 1 == i then previous
      else (previous.0 + ds[n - 1].0, previous.1 + ds[n - 1].1)
  }

  /** The step team i's members share. */
  function MultiTeamStep(m: Libm, config: MhthConfig, teams: seq<TeamAndRank>, i: nat): (s: TeamStep)
    requires m.Lawful() && ValidConfig(config) && i < |teams|
    ensures s.uncertaintySq == TeamUncertaintySq(teams[i].0) && s.largeDelta >= 0.0
  {
    var a := Accumulated(PairContributions(m, config, teams, i), i, |teams|);
    TeamStep(TeamUncertaintySq(teams[i].0), a.0, a.1)
  }

  predicate NoEmptyTeam(teams: seq<TeamAndRank>)
  {
    forall i :: 0 <= i < |teams| ==> teams[i].0 != []
  }

  /** The update divides by every team's summed variance once no team is empty; a team whose
      members all have zero uncertainty would give NaN, which the model excludes. */
  predicate MultiTeamDefined(teams: seq<TeamAndRank>)
  {
    NoEmptyTeam(teams) ==> forall i :: 0 <= i < |teams| ==> TeamUncertaintySq(teams[i].0) != 0.0
  }

  /** The teams without their ranks. */
  function Teams(teams: seq<TeamAndRank>): seq<seq<MhthRating>>
  {
    seq(|teams|, i requires 0 <= i < |teams| => teams[i].0)
  }

  /**
   What `mhth_multi_team` returns: nothing for no teams, every team unchanged when one of
   them is empty, otherwise every team updated with its own step. Either way there are as
   many teams as given, each as long as before, and every member keeps its modifier.
   */
  function MultiTeam(m: Libm, teams: seq<TeamAndRank>, config: MhthConfig): (r: seq<seq<MhthRating>>)
    requires m.Lawful() && ValidConfig(config) && MultiTeamDefined(teams)
    ensures |r| == |teams|
    ensures forall i :: 0 <= i < |teams| ==> |r[i]| == |teams[i].0|
    ensures !NoEmptyTeam(teams) ==> r == Teams(teams)
    ensures forall i, j :: 0 <= i < |teams| && 0 <= j < |teams[i].0| ==>
      r[i][j].loadout_modifier == teams[i].0[j].loadout_modifier
  {
    if !NoEmptyTeam(teams) then Teams(teams)
    else
      seq(|teams|, i requires 0 <= i < |teams| =>
        UpdateTeam(m, teams[i].0, MultiTeamStep(m, config, teams, i), config.uncertainty_tolerance))
  }

  /** `mhth_multi_team`: the early exits, the loop gathering the aggregates, and for every
      team the loop over the other teams and the loop over its members. */
  method MhthMultiTeam(m: Libm, teamsAndRanks: seq<TeamAndRank>, config: MhthConfig)
    returns (newTeams: seq<seq<MhthRating>>)
    requires m.Lawful() && ValidConfig(config) && MultiTeamDefined(teamsAndRanks)
    ensures newTeams == MultiTeam(m, teamsAndRanks, config)
  {
    if teamsAndRanks == [] {
      return [];
    }
    for k := 0 to |teamsAndRanks|
      invariant forall j :: 0 <= j < k ==> teamsAndRanks[j].0 != []
    {
      if teamsAndRanks[k].0 == [] {
        return Teams(teamsAndRanks);
      }
    }

    var teamsRatings, teamsUncertaintiesSq := TeamAggregates(Teams(teamsAndRanks));
    assert Aggregated(teamsAndRanks, teamsRatings, teamsUncertaintiesSq);
    newTeams := UpdateTeams(m, config, teamsAndRanks, teamsRatings, teamsUncertaintiesSq);
  }

  /** The loop over the teams of `mhth_multi_team`: team i's omega and large delta from the
      comparisons with the other teams, then the loop over its members. */
  method UpdateTeams(m: Libm, config: MhthConfig, teamsAndRanks: seq<TeamAndRank>, teamsRatings: seq<real>,
                     teamsUncertaintiesSq: seq<real>)
    returns (newTeams: seq<seq<MhthRating>>)
    requires m.Lawful() && ValidConfig(config) && MultiTeamDefined(teamsAndRanks) && NoEmptyTeam(teamsAndRanks)
    requires Aggregated(teamsAndRanks, teamsRatings, teamsUncertaintiesSq)
    ensures |newTeams| == |teamsAndRanks|
    ensures forall j :: 0 <= j < |teamsAndRanks| ==>
      newTeams[j] == UpdateTeam(m, teamsAndRanks[j].0, MultiTeamStep(m, config, teamsAndRanks, j),
                                config.uncertainty_tolerance)
  {
    newTeams := [];
    for i := 0 to |teamsAndRanks|
      invariant |newTeams| == i
      invariant forall j :: 0 <= j < i ==>
        newTeams[j] == UpdateTeam(m, teamsAndRanks[j].0, MultiTeamStep(m, config, teamsAndRanks, j),
                                  config.uncertainty_tolerance)
    {
      var newTeam := UpdateOneTeam(m, config, teamsAndRanks, teamsRatings, teamsUncertaintiesSq, i);
      newTeams := newTeams + [newTeam];
    }
  }

  /** One pass of the loop over the teams: team i's comparisons, then its members. */
  method UpdateOneTeam(m: Libm, config: MhthConfig, teamsAndRanks: seq<TeamAndRank>, teamsRatings: seq<real>,
                       teamsUncertaintiesSq: seq<real>, i: nat)
    returns (newTeam: seq<MhthRating>)
    requires m.Lawful() && ValidConfig(config) && MultiTeamDefined(teamsAndRanks) && NoEmptyTeam(teamsAndRanks)
    requires i < |teamsAndRanks| && Aggregated(teamsAndRanks, teamsRatings, teamsUncertaintiesSq)
    ensures newTeam == UpdateTeam(m, teamsAndRanks[i].0, MultiTeamStep(m, config, teamsAndRanks, i),
                                  config.uncertainty_tolerance)
  {
    ContributionsTabulated(m, config, teamsAndRanks, teamsRatings, teamsUncertaintiesSq, i);
    var omega, largeDelta := Comparisons(m, config, teamsAndRanks, teamsRatings, teamsUncertaintiesSq, i,
                                         PairContributions(m, config, teamsAndRanks, i));
    newTeam := UpdateMembers(m, teamsAndRanks[i].0, TeamStep(teamsUncertaintiesSq[i], omega, largeDelta),
                             config.uncertainty_tolerance);
  }

  /** The summed skill of every team. */
  function TeamRatings(teams: seq<seq<MhthRating>>): (r: seq<real>)
  {
    seq(|teams|, i requires 0 <= i < |teams| => TeamRating(teams[i]))
  }

  /** The summed variance of every team. */
  function TeamUncertaintiesSq(teams: seq<seq<MhthRating>>): (r: seq<real>)
  {
    seq(|teams|, i requires 0 <= i < |teams| => TeamUncertaintySq(teams[i]))
  }

  /** The loop that pushes every team's summed skill and summed variance. */
  method TeamAggregates(teams: seq<seq<MhthRating>>) returns (ratings: seq<real>, uncertaintiesSq: seq<real>)
    ensures ratings == TeamRatings(teams) && uncertaintiesSq == TeamUncertaintiesSq(teams)
  {
    ratings, uncertaintiesSq := [], [];
    for k := 0 to |teams|
      invariant |ratings| == k && |uncertaintiesSq| == k
      invariant forall j :: 0 <= j < k ==> ratings[j] == TeamRating(teams[j])
      invariant forall j :: 0 <= j < k ==> uncertaintiesSq[j] == TeamUncertaintySq(teams[j])
    {
      ratings := ratings + [TeamRating(teams[k])];
      uncertaintiesSq := uncertaintiesSq + [TeamUncertaintySq(teams[k])];
    }
  }

  /** ratings[j] and uncertaintiesSq[j] are team j's summed skill and summed variance. */
  predicate Aggregated(teams: seq<TeamAndRank>, ratings: seq<real>, uncertaintiesSq: seq<real>)
  {
    && |ratings| == |teams| && |uncertaintiesSq| == |teams|
    && (forall j :: 0 <= j < |teams| ==> ratings[j] == TeamRating(teams[j].0))
    && (forall j :: 0 <= j < |teams| ==> uncertaintiesSq[j] == TeamUncertaintySq(teams[j].0))
  }

  /** `Entry(ds, q)`: q indexes ds; it names the entries of a table whose law a proof uses. */
  ghost predicate Entry(ds: seq<(real, real)>, q: int)
  {
    0 <= q < |ds|
  }

  /** ds holds team i's comparison with every team, on the aggregates before the match. */
  ghost predicate Tabulates(m: Libm, config: MhthConfig, teams: seq<TeamAndRank>, ratings: seq<real>,
                            uncertaintiesSq: seq<real>, i: nat, ds: seq<(real, real)>)
    requires m.Lawful() && ValidConfig(config) && i < |teams| && Aggregated(teams, ratings, uncertaintiesSq)
  {
    && |ds| == |teams|
    && forall q {:trigger Entry(ds, q)} :: Entry(ds, q) ==>
         ds[q] == Contribution(m, config, ratings[i], uncertaintiesSq[i], teams[i].1,
                               ratings[q], uncertaintiesSq[q], teams[q].1)
  }

  /** The table of team i's comparisons is the one the aggregates give. */
  lemma ContributionsTabulated(m: Libm, config: MhthConfig, teams: seq<TeamAndRank>, ratings: seq<real>,
                               uncertaintiesSq: seq<real>, i: nat)
    requires m.Lawful() && ValidConfig(config) && i < |teams| && Aggregated(teams, ratings, uncertaintiesSq)
    ensures Tabulates(m, config, teams, ratings, uncertaintiesSq, i, PairContributions(m, config, teams, i))
  {
    var ds := PairContributions(m, config, teams, i);
    forall q | Entry(ds, q)
      ensures ds[q] == Contribution(m, config, ratings[i], uncertaintiesSq[i], teams[i].1,
                                    ratings[q], uncertaintiesSq[q], teams[q].1)
    {
    }
  }

  /** The loop over the other teams of `mhth_multi_team`, summing team i's omega and large
      delta on the aggregates gathered before the match; `ds` names those comparisons. */
  method Comparisons(m: Libm, config: MhthConfig, teamsAndRanks: seq<TeamAndRank>, teamsRatings: seq<real>,
                     teamsUncertaintiesSq: seq<real>, i: nat, ghost ds: seq<(real, real)>)
    returns (omega: real, largeDelta: real)
    requires m.Lawful() && ValidConfig(config) && i < |teamsAndRanks|
    requires Aggregated(teamsAndRanks, teamsRatings, teamsUncertaintiesSq)
    requires Tabulates(m, config, teamsAndRanks, teamsRatings, teamsUncertaintiesSq, i, ds)
    ensures (omega, largeDelta) == Accumulated(ds, i, |ds|)
  {
    omega, largeDelta := 0.0, 0.0;
    for q := 0 to |teamsAndRanks|
      invariant (omega, largeDelta) == Accumulated(ds, i, q)
    {
      if i == q {
        continue;
      }
      var smallDelta, eta := Comparison(m, config, teamsRatings[i], teamsUncertaintiesSq[i], teamsAndRanks[i].1,
                                        teamsRatings[q], teamsUncertaintiesSq[q], teamsAndRanks[q].1);
      assert Entry(ds, q);
      omega := omega + smallDelta;
      largeDelta := largeDelta + eta;
    }
  }

  /** The body of the loop over the other teams: the small delta and eta of one comparison. */
  method Comparison(m: Libm, config: MhthConfig, ratingOne: real, uncertaintySqOne: real, rankOne: MultiTeamOutcome,
                    ratingTwo: real, uncertaintySqTwo: real, rankTwo: MultiTeamOutcome)
    returns (smallDelta: real, eta: real)
    requires m.Lawful() && ValidConfig(config) && uncertaintySqOne >= 0.0 && uncertaintySqTwo >= 0.0
    ensures (smallDelta, eta)
         == Contribution(m, config, ratingOne, uncertaintySqOne, rankOne, ratingTwo, uncertaintySqTwo, rankTwo)
  {
    var c := CValue(m, config, uncertaintySqOne + uncertaintySqTwo);
    var p := PValue(m, ratingOne, ratingTwo, c).0;
    var score := RankScore(rankOne, rankTwo);
    smallDelta := SmallDelta(uncertaintySqOne, c, p, score);
    eta := Eta(uncertaintySqOne, c, p, Gamma(m, uncertaintySqOne, c));
  }

  /** When every term but team i's own has a positive omega part, the sum is non-negative,
      and positive once there is such a term; likewise for negative parts. */
  lemma {:induction false} AccumulatedSign(ds: seq<(real, real)>, i: nat, n: nat)
    requires n <= |ds|
    ensures (forall q :: 0 <= q < n && q != i ==> ds[q].0 > 0.0) ==>
      Accumulated(ds, i, n).0 >= 0.0 && (n > (if i < n then 1 else 0) ==> Accumulated(ds, i, n).0 > 0.0)
    ensures (forall q :: 0 <= q < n && q != i ==> ds[q].0 < 0.0) ==>
      Accumulated(ds, i, n).0 <= 0.0 && (n > (if i < n then 1 else 0) ==> Accumulated(ds, i, n).0 < 0.0)
  {
    if n > 0 {
      AccumulatedSign(ds, i, n - 1);
    }
  }

  /** A team that placed strictly better than every other team gains rating for every member
      with a non-zero uncertainty; one that placed strictly worse than every other loses. */
  lemma {:induction false} MultiTeamRankDirection(m: Libm, teams: seq<TeamAndRank>, config: MhthConfig, i: nat)
    requires m.Lawful() && ValidConfig(config) && MultiTeamDefined(teams) && NoEmptyTeam(teams)
    requires i < |teams| && |teams| >= 2
    ensures var r := MultiTeam(m, teams, config);
      && ((forall q :: 0 <= q < |teams| && q != i ==> Rank(teams[i].1) < Rank(teams[q].1)) ==>
            forall j :: 0 <= j < |teams[i].0| && teams[i].0[j].uncertainty != 0.0 ==>
              r[i][j].rating > teams[i].0[j].rating)
      && ((forall q :: 0 <= q < |teams| && q != i ==> Rank(teams[i].1) > Rank(teams[q].1)) ==>
            forall j :: 0 <= j < |teams[i].0| && teams[i].0[j].uncertainty != 0.0 ==>
              r[i][j].rating < teams[i].0[j].rating)
  {
    var ds := PairContributions(m, config, teams, i);
    assert TeamUncertaintySq(teams[i].0) > 0.0;
    if forall q :: 0 <= q < |teams| && q != i ==> Rank(teams[i].1) < Rank(teams[q].1) {
      forall q | 0 <= q < |teams| && q != i
        ensures ds[q].0 > 0.0
      {
      }
    }
    if forall q :: 0 <= q < |teams| && q != i ==> Rank(teams[i].1) > Rank(teams[q].1) {
      forall q | 0 <= q < |teams| && q != i
        ensures ds[q].0 < 0.0
      {
      }
    }
    AccumulatedSign(ds, i, |teams|);
  }

  /** With the tolerance in [0, 1], no member's uncertainty grows or becomes negative. */
  lemma {:induction false} MultiTeamUncertaintyNonIncreasing(m: Libm, teams: seq<TeamAndRank>, config: MhthConfig)
    requires m.Lawful() && ValidConfig(config) && ToleranceInRange(config) && MultiTeamDefined(teams)
    ensures var r := MultiTeam(m, teams, config);
      forall i, j :: 0 <= i < |teams| && 0 <= j < |teams[i].0| && teams[i].0[j].uncertainty >= 0.0 ==>
        0.0 <= r[i][j].uncertainty <= teams[i].0[j].uncertainty
  {
    if NoEmptyTeam(teams) {
      forall i | 0 <= i < |teams|
        ensures MultiTeamStep(m, config, teams, i).uncertaintySq > 0.0
      {
      }
    }
  }

  /** Two ranked teams are rated as `mhth_team_vs_environment` rates them, with the outcome
      their ranks stand for. */
  lemma {:induction false} TwoTeamsAgreeWithVersus(m: Libm, a: seq<MhthRating>, rankA: MultiTeamOutcome,
                                                   b: seq<MhthRating>, rankB: MultiTeamOutcome, config: MhthConfig)
    requires m.Lawful() && ValidConfig(config) && a != [] && b != []
    requires TeamUncertaintySq(a) != 0.0 && TeamUncertaintySq(b) != 0.0
    ensures var versus := TeamVsEnvironment(m, a, b, OutcomeOfRanks(rankA, rankB), config);
      MultiTeam(m, [(a, rankA), (b, rankB)], config) == [versus.0, versus.1]
  {
    var teams := [(a, rankA), (b, rankB)];
    var steps := VersusSteps(m, a, b, OutcomeOfRanks(rankA, rankB), config);
    TwoTeamSteps(m, a, rankA, b, rankB, config);
    var r := MultiTeam(m, teams, config);
    assert NoEmptyTeam(teams);
    assert r[0] == UpdateTeam(m, a, steps.0, config.uncertainty_tolerance);
    assert r[1] == UpdateTeam(m, b, steps.1, config.uncertainty_tolerance);
  }

  /** In a match of two teams, each team's step is its side's step against the other. */
  lemma TwoTeamSteps(m: Libm, a: seq<MhthRating>, rankA: MultiTeamOutcome,
                     b: seq<MhthRating>, rankB: MultiTeamOutcome, config: MhthConfig)
    requires m.Lawful() && ValidConfig(config)
    ensures var teams := [(a, rankA), (b, rankB)];
      var steps := VersusSteps(m, a, b, OutcomeOfRanks(rankA, rankB), config);
      MultiTeamStep(m, config, teams, 0) == steps.0 && MultiTeamStep(m, config, teams, 1) == steps.1
  {
    var teams := [(a, rankA), (b, rankB)];
    ContributionsAreVersusSteps(m, a, rankA, b, rankB, config);
    assert teams[0] == (a, rankA) && teams[1] == (b, rankB);
    var ds0, ds1 := PairContributions(m, config, teams, 0), PairContributions(m, config, teams, 1);
    var d0, d1 := ds0[1], ds1[0];
    assert Accumulated(ds0, 0, 1) == (0.0, 0.0);
    assert Accumulated(ds0, 0, 2) == (0.0 + d0.0, 0.0 + d0.1);
    assert Accumulated(ds1, 1, 1) == (0.0 + d1.0, 0.0 + d1.1);
    assert Accumulated(ds1, 1, 2) == Accumulated(ds1, 1, 1);
  }

  /** Each side's step in `mhth_team_vs_environment` is the comparison of that side with the
      other, scored by the ranks. */
  lemma ContributionsAreVersusSteps(m: Libm, a: seq<MhthRating>, rankA: MultiTeamOutcome,
                                    b: seq<MhthRating>, rankB: MultiTeamOutcome, config: MhthConfig)
    requires m.Lawful() && ValidConfig(config)
    ensures var ua, ub := TeamUncertaintySq(a), TeamUncertaintySq(b);
      var steps := VersusSteps(m, a, b, OutcomeOfRanks(rankA, rankB), config);
      var d0 := Contribution(m, config, TeamRating(a), ua, rankA, TeamRating(b), ub, rankB);
      var d1 := Contribution(m, config, TeamRating(b), ub, rankB, TeamRating(a), ua, rankA);
      steps.0 == TeamStep(ua, d0.0, d0.1) && steps.1 == TeamStep(ub, d1.0, d1.1)
  {
    var ua, ub := TeamUncertaintySq(a), TeamUncertaintySq(b);
    var c := CValue(m, config, ua + ub);
    assert CValue(m, config, ub + ua) == c by {
      assert ub + ua == ua + ub;
    }
    var p := PValue(m, TeamRating(a), TeamRating(b), c);
    PValueSwap(m, TeamRating(a), TeamRating(b), c);
    var o := OutcomeOfRanks(rankA, rankB);
    assert VersusSteps(m, a, b, o, config)
        == (SideStep(m, c, ua, p.0, RankScore(rankA, rankB)), SideStep(m, c, ub, p.1, RankScore(rankB, rankA)));
  }

  /** The summed variance of all teams, the spread of c in `expected_score_multi_team`. */
  function AllUncertaintySq(teams: seq<seq<MhthRating>>): (s: real)
    ensures s >= 0.0
  {
    var u := TeamUncertaintiesSq(teams);
    SumSign(u);
    Sum(u)
  }

  /** exp(team rating / c) of every team. */
  function TeamExps(m: Libm, teams: seq<seq<MhthRating>>, c: real): (e: seq<real>)
    requires m.Lawful() && c != 0.0
    ensures |e| == |teams| && forall i :: 0 <= i < |e| ==> e[i] > 0.0
  {
    seq(|teams|, i requires 0 <= i < |teams| => m.exp(TeamRating(teams[i]) / c))
  }

  /**
   `expected_score_multi_team`: the softmax of the team ratings over one c for all teams.
   The scores are probabilities that sum to 1 over a non-empty match, and a team's score
   is below another's exactly when its summed skill is.
   */
  function ExpectedMultiTeam(m: Libm, teams: seq<seq<MhthRating>>, config: MhthConfig): (r: seq<real>)
    requires m.Lawful() && ValidConfig(config)
    ensures |r| == |teams|
    ensures forall i :: 0 <= i < |r| ==> 0.0 < r[i] <= 1.0
    ensures teams != [] ==> Sum(r) == 1.0
    ensures forall i, j :: 0 <= i < |r| && 0 <= j < |r| ==> (r[i] < r[j] <==> TeamRating(teams[i]) < TeamRating(teams[j]))
  {
    if teams == [] then []
    else
      var c := CValue(m, config, AllUncertaintySq(teams));
      SoftmaxLaws(m, teams, c);
      var e := TeamExps(m, teams, c);
      DivideAll(e, Sum(e))
  }

  /** The shares exp(rating_i / c) / sum of a non-empty match lie in (0, 1], sum to 1 and are
      ordered as the team ratings. */
  lemma SoftmaxLaws(m: Libm, teams: seq<seq<MhthRating>>, c: real)
    requires m.Lawful() && c > 0.0 && teams != []
    ensures var e := TeamExps(m, teams, c);
      Sum(e) > 0.0 &&
      var r := DivideAll(e, Sum(e));
      && (forall i :: 0 <= i < |r| ==> 0.0 < r[i] <= 1.0)
      && Sum(r) == 1.0
      && (forall i, j :: 0 <= i < |r| && 0 <= j < |r| ==> (r[i] < r[j] <==> TeamRating(teams[i]) < TeamRating(teams[j])))
  {
    var e := TeamExps(m, teams, c);
    SharesOfWhole(e);
    SharesOrdered(m, teams, c);
  }

  /** Positive terms divided by their sum are shares in (0, 1] that sum to 1. */
  lemma SharesOfWhole(e: seq<real>)
    requires e != [] && forall i :: 0 <= i < |e| ==> e[i] > 0.0
    ensures Sum(e) > 0.0
    ensures forall i :: 0 <= i < |e| ==> 0.0 < DivideAll(e, Sum(e))[i] <= 1.0
    ensures Sum(DivideAll(e, Sum(e))) == 1.0
  {
    SumSign(e);
    var total := Sum(e);
    SumDivideAll(e, total);
    DivSelf(total);
    forall i | 0 <= i < |e|
      ensures 0.0 < e[i] / total <= 1.0
    {
      TermAtMostSum(e, i);
      PartOfWhole(e[i], total);
    }
  }

  /** The shares exp(rating_i / c) / t are ordered as the team ratings. */
  lemma SharesOrdered(m: Libm, teams: seq<seq<MhthRating>>, c: real)
    requires m.Lawful() && c > 0.0 && teams != []
    ensures var e := TeamExps(m, teams, c);
      Sum(e) > 0.0 &&
      var r := DivideAll(e, Sum(e));
      forall i, j :: 0 <= i < |r| && 0 <= j < |r| ==> (r[i] < r[j] <==> TeamRating(teams[i]) < TeamRating(teams[j]))
  {
    var e := TeamExps(m, teams, c);
    SumSign(e);
    var total := Sum(e);
    forall i, j | 0 <= i < |e| && 0 <= j < |e|
      ensures e[i] / total < e[j] / total <==> TeamRating(teams[i]) < TeamRating(teams[j])
    {
      ShareOrder(m, TeamRating(teams[i]), TeamRating(teams[j]), c, total);
    }
  }

  /** exp(a / c) / t < exp(b / c) / t exactly when a < b, for positive c and t. */
  lemma ShareOrder(m: Libm, a: real, b: real, c: real, t: real)
    requires m.Lawful() && c > 0.0 && t > 0.0
    ensures m.exp(a / c) / t < m.exp(b / c) / t <==> a < b
  {
    var x, y := m.exp(a / c), m.exp(b / c);
    if a < b {
      DivMonotone(a, b, c);
      ExpOrder(m, a / c, b / c);
      DivMonotone(x, y, t);
    } else {
      if b < a {
        DivMonotone(b, a, c);
      }
      ExpOrder(m, b / c, a / c);
      if y < x {
        DivMonotone(y, x, t);
      }
    }
  }

  /** A positive part of a whole is a share in (0, 1]. */
  lemma PartOfWhole(x: real, t: real)
    requires 0.0 < x <= t
    ensures 0.0 < x / t <= 1.0
  {
    DivPositive(x, t);
    if x < t {
      DivMonotone(x, t, t);
    }
  }

  /** A positive term is at most the sum of positive terms. */
  lemma {:induction false} TermAtMostSum(s: seq<real>, i: nat)
    requires i < |s| && forall k :: 0 <= k < |s| ==> s[k] > 0.0
    ensures s[i] <= Sum(s)
  {
    var init := s[..|s| - 1];
    assert forall k :: 0 <= k < |init| ==> init[k] == s[k];
    SumSign(init);
    if i < |s| - 1 {
      TermAtMostSum(init, i);
    }
  }

  /** `expected_score_multi_team`: the loops gathering the ratings and variances, the loop
      filling `exps` and summing them, and the loop dividing `exps` by the sum in place. */
  method ExpectedScoreMultiTeam(m: Libm, teams: seq<seq<MhthRating>>, config: MhthConfig) returns (r: seq<real>)
    requires m.Lawful() && ValidConfig(config)
    ensures r == ExpectedMultiTeam(m, teams, config)
  {
    var ratings, uncertaintiesSq := TeamAggregates(teams);
    assert Sum(uncertaintiesSq) == AllUncertaintySq(teams);
    var c := CValue(m, config, Sum(uncertaintiesSq));
    var exps, sum := Exponentials(m, teams, ratings, c);
    if exps.Length > 0 {
      SumSign(exps[..]);
    }
    DivideInPlace(exps, sum);
    r := exps[..];
  }

  /** The loop of `expected_score_multi_team` pushing exp(rating / c) of every team and
      summing them. */
  method Exponentials(m: Libm, teams: seq<seq<MhthRating>>, ratings: seq<real>, c: real)
    returns (exps: array<real>, sum: real)
    requires m.Lawful() && c != 0.0 && ratings == TeamRatings(teams)
    ensures fresh(exps) && exps[..] == TeamExps(m, teams, c) && sum == Sum(exps[..])
  {
    ghost var e := TeamExps(m, teams, c);
    exps := new real[|ratings|];
    sum := 0.0;
    for i := 0 to |ratings|
      invariant exps[..i] == e[..i] && sum == Sum(e[..i])
    {
      var x := m.exp(ratings[i] / c);
      exps[i] := x;
      assert e[..i + 1][..i] == e[..i];
      sum := sum + x;
    }
    assert exps[..] == exps[..|ratings|];
  }

  /** The loop dividing every element of `exps` by the sum, in place. */
  method DivideInPlace(a: array<real>, k: real)
    requires a.Length > 0 ==> k != 0.0
    modifies a
    ensures a[..] == DivideAll(old(a[..]), k)
  {
    for i := 0 to a.Length
      invariant forall j :: 0 <= j < i ==> a[j] == old(a[j]) / k
      invariant forall j :: i <= j < a.Length ==> a[j] == old(a[j])
    {
      a[i] := a[i] / k;
    }
  }
}
