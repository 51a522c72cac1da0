/**
 The MHTH rating engine, part two (crates/skillratings/src/mhth.rs): a team of
 players against an environment made of several ratings. Each side is summed
 into one rating and one variance, the two sides are compared once, and every
 member then takes the share sigma_i^2 / sigma_team^2 of its side's step.
 */
module MhthTeams {
  import opened Numerics
  import opened SkillRatings
  import opened Mhth

  /** The summed skill (rating plus modifier) of a team. */
  function TeamRating(team: seq<MhthRating>): real
  {
    if team == [] then 0.0 else TeamRating(team[..|team| - 1]) + Skill(team[|team| - 1])
  }

  /** The summed variance sigma^2 of a team: never negative, and zero exactly when every
      member's uncertainty is zero. */
  function TeamUncertaintySq(team: seq<MhthRating>): (s: real)
    ensures s >= 0.0
    ensures s == 0.0 <==> forall i :: 0 <= i < |team| ==> team[i].uncertainty == 0.0
  {
    if team == [] then 0.0
    else
      var init, last := team[..|team| - 1], team[|team| - 1];
      SqSign(last.uncertainty);
      assert forall i :: 0 <= i < |init| ==> init[i] == team[i];
      assert Sq(0.0) == 0.0;
      TeamUncertaintySq(init) + Sq(last.uncertainty)
  }

  /** `new_rating_teams`: the player's share sigma_i^2 / sigma_team^2 of the team's step
      omega, added to the player's rating; the rating moves in the direction of omega. */
  function NewRatingTeams(playerRating: real, playerUncertaintySq: real, teamUncertaintySq: real, omega: real)
    : (r: real)
    requires teamUncertaintySq != 0.0
    ensures omega == 0.0 ==> r == playerRating
    ensures playerUncertaintySq > 0.0 && teamUncertaintySq > 0.0 ==>
      (r > playerRating <==> omega > 0.0) && (r < playerRating <==> omega < 0.0)
  {
    StepSign(playerUncertaintySq, teamUncertaintySq, omega);
    (playerUncertaintySq / teamUncertaintySq) * omega + playerRating
  }

  /** The factor `max(1 - sigma_i^2 / sigma_team^2 * large_delta, tolerance)` by which
      `new_uncertainty_teams` scales sigma_i^2: never below the tolerance, and at most 1 for a
      non-negative large delta. */
  function TeamShrinkFactor(playerUncertaintySq: real, teamUncertaintySq: real, tolerance: real, largeDelta: real)
    : (f: real)
    requires teamUncertaintySq != 0.0
    ensures f >= tolerance
    ensures tolerance <= 1.0 && playerUncertaintySq >= 0.0 && teamUncertaintySq > 0.0 && largeDelta >= 0.0 ==> f <= 1.0
  {
    ShareTimesNonNegative(playerUncertaintySq, teamUncertaintySq, largeDelta);
    Max((playerUncertaintySq / teamUncertaintySq) * -largeDelta + 1.0, tolerance)
  }

  lemma ShareTimesNonNegative(a: real, b: real, d: real)
    requires b != 0.0
    ensures a >= 0.0 && b > 0.0 && d >= 0.0 ==> (a / b) * -d <= 0.0
  {
    if a >= 0.0 && b > 0.0 && d >= 0.0 {
      DivNonNegative(a, b);
      MulNonNegative(a / b, d);
      assert (a / b) * -d == -((a / b) * d);
    }
  }

  /** `new_uncertainty_teams`: the square root of sigma_i^2 times the shrink factor. */
  function NewUncertaintyTeams(m: Libm, playerUncertaintySq: real, teamUncertaintySq: real, tolerance: real,
                               largeDelta: real)
    : (u: real)
    requires m.Lawful() && teamUncertaintySq != 0.0
    ensures tolerance >= 0.0 && playerUncertaintySq >= 0.0 ==> u >= 0.0 && Sq(u) >= playerUncertaintySq * tolerance
    ensures tolerance > 0.0 && playerUncertaintySq > 0.0 ==> u > 0.0
    ensures 0.0 <= tolerance <= 1.0 && playerUncertaintySq >= 0.0 && teamUncertaintySq > 0.0 && largeDelta >= 0.0 ==>
      Sq(u) <= playerUncertaintySq
  {
    var factor := TeamShrinkFactor(playerUncertaintySq, teamUncertaintySq, tolerance, largeDelta);
    TeamShrinkLaws(m, playerUncertaintySq, factor, tolerance);
    m.sqrt(playerUncertaintySq * factor)
  }

  /** For x >= 0 and a factor f >= tolerance, sqrt(x * f) is non-negative, squares to at
      least x * tolerance, is positive when x and the tolerance are, and squares to at most x
      when f is at most 1. */
  lemma TeamShrinkLaws(m: Libm, x: real, f: real, tolerance: real)
    requires m.Lawful() && tolerance <= f
    ensures x >= 0.0 && tolerance >= 0.0 ==> m.sqrt(x * f) >= 0.0 && Sq(m.sqrt(x * f)) >= x * tolerance
    ensures x > 0.0 && tolerance > 0.0 ==> m.sqrt(x * f) > 0.0
    ensures x >= 0.0 && 0.0 <= f <= 1.0 ==> Sq(m.sqrt(x * f)) <= x
  {
    if x >= 0.0 {
      ShrinkLaws(m, x, f, tolerance);
      if 0.0 <= f <= 1.0 {
        MulNonNegative(x, f);
        SqrtLaw(m, x * f);
        assert x - x * f == x * (1.0 - f);
        MulNonNegative(x, 1.0 - f);
      }
    }
  }

  /** What a side's members share: the side's summed variance, its step omega (small delta
      against one opponent) and its variance shrink (large delta, eta against one opponent). */
  datatype TeamStep = TeamStep(uncertaintySq: real, omega: real, largeDelta: real)

  /**
   The update of one member, as the loops of `mhth_team_vs_environment` and
   `mhth_multi_team` compute it on rating plus modifier: the modifier is kept, the rating
   moves in the direction of the side's omega (not at all when omega is zero), and the
   uncertainty never grows when the shrink is non-negative.
   */
  function UpdateMember(m: Libm, player: MhthRating, step: TeamStep, tolerance: real): (r: MhthRating)
    requires m.Lawful() && step.uncertaintySq != 0.0
    ensures r.loadout_modifier == player.loadout_modifier
    ensures step.omega == 0.0 ==> r.rating == player.rating
    ensures player.uncertainty != 0.0 && step.uncertaintySq > 0.0 ==>
      (r.rating > player.rating <==> step.omega > 0.0) && (r.rating < player.rating <==> step.omega < 0.0)
    ensures 0.0 <= tolerance <= 1.0 && player.uncertainty >= 0.0 && step.uncertaintySq > 0.0 && step.largeDelta >= 0.0 ==>
      0.0 <= r.uncertainty <= player.uncertainty
  {
    var uncertaintySq := Sq(player.uncertainty);
    SqSign(player.uncertainty);
    var newUncertainty := NewUncertaintyTeams(m, uncertaintySq, step.uncertaintySq, tolerance, step.largeDelta);
    SqAtMost(newUncertainty, player.uncertainty);
    MhthRating(
      NewRatingTeams(Skill(player), uncertaintySq, step.uncertaintySq, step.omega) - player.loadout_modifier,
      player.loadout_modifier,
      newUncertainty)
  }

  /** Every member of a side updated with the side's step, in order. */
  function UpdateTeam(m: Libm, team: seq<MhthRating>, step: TeamStep, tolerance: real): (r: seq<MhthRating>)
    requires m.Lawful() && step.uncertaintySq != 0.0
    ensures |r| == |team|
    ensures forall i :: 0 <= i < |team| ==> r[i] == UpdateMember(m, team[i], step, tolerance)
  {
    seq(|team|, i requires 0 <= i < |team| => UpdateMember(m, team[i], step, tolerance))
  }

  /** The loop over one side's members that pushes each updated rating. */
  method UpdateMembers(m: Libm, team: seq<MhthRating>, step: TeamStep, tolerance: real)
    returns (newTeam: seq<MhthRating>)
    requires m.Lawful() && step.uncertaintySq != 0.0
    ensures newTeam == UpdateTeam(m, team, step, tolerance)
  {
    newTeam := [];
    for i := 0 to |team|
      invariant |newTeam| == i
      invariant forall k :: 0 <= k < i ==> newTeam[k] == UpdateMember(m, team[k], step, tolerance)
    {
      newTeam := newTeam + [UpdateMember(m, team[i], step, tolerance)];
    }
  }

  /**
   The step of a side with summed variance `uncertaintySq` after one comparison with win
   probability p and score `score`: omega is `small_delta` and the large delta is `eta`
   with `gamma`. omega is zero when the score is what was expected and has the sign of
   score - p otherwise; the large delta is never negative.
   */
  function SideStep(m: Libm, c: real, uncertaintySq: real, p: real, score: real): (s: TeamStep)
    requires m.Lawful() && c > 0.0 && uncertaintySq >= 0.0 && 0.0 <= p <= 1.0
    ensures s.uncertaintySq == uncertaintySq && s.largeDelta >= 0.0
    ensures score == p ==> s.omega == 0.0
    ensures uncertaintySq > 0.0 ==> (s.omega > 0.0 <==> score > p) && (s.omega < 0.0 <==> score < p)
  {
    TeamStep(uncertaintySq, SmallDelta(uncertaintySq, c, p, score), Eta(uncertaintySq, c, p, Gamma(m, uncertaintySq, c)))
  }

  /** The team functions divide by each non-empty side's summed variance; a side whose
      members all have zero uncertainty would give NaN, which the model excludes. */
  predicate VersusDefined(playersTeam: seq<MhthRating>, environment: seq<MhthRating>)
  {
    playersTeam != [] && environment != [] ==>
      TeamUncertaintySq(playersTeam) != 0.0 && TeamUncertaintySq(environment) != 0.0
  }

  /**
   The two steps of `mhth_team_vs_environment`: one comparison of the summed skills with
   c = sqrt(2 beta^2 + both summed variances), the environment scoring 1 - score. A win
   gives the players a positive step and the environment a negative one, a loss the
   reverse, and a draw between equal sums gives both a zero step.
   */
  function VersusSteps(m: Libm, playersTeam: seq<MhthRating>, environment: seq<MhthRating>, outcome: Outcomes,
                       config: MhthConfig)
    : (s: (TeamStep, TeamStep))
    requires m.Lawful() && ValidConfig(config)
    ensures s.0.uncertaintySq == TeamUncertaintySq(playersTeam)
    ensures s.1.uncertaintySq == TeamUncertaintySq(environment)
    ensures s.0.largeDelta >= 0.0 && s.1.largeDelta >= 0.0
    ensures outcome == Draw && TeamRating(playersTeam) == TeamRating(environment) ==>
      s.0.omega == 0.0 && s.1.omega == 0.0
    ensures s.0.uncertaintySq > 0.0 ==>
      (outcome == Successful ==> s.0.omega > 0.0) && (outcome == Failure ==> s.0.omega < 0.0)
    ensures s.1.uncertaintySq > 0.0 ==>
      (outcome == Successful ==> s.1.omega < 0.0) && (outcome == Failure ==> s.1.omega > 0.0)
  {
    var playersUncertaintySq := TeamUncertaintySq(playersTeam);
    var environmentUncertaintySq := TeamUncertaintySq(environment);
    var c := CValue(m, config, playersUncertaintySq + environmentUncertaintySq);
    var p := PValue(m, TeamRating(playersTeam), TeamRating(environment), c);
    var outcome1 := ToChessPoints(outcome);
    (SideStep(m, c, playersUncertaintySq, p.0, outcome1), SideStep(m, c, environmentUncertaintySq, p.1, 1.0 - outcome1))
  }

  /**
   What `mhth_team_vs_environment` returns: both sides unchanged when either is empty,
   otherwise every member of each side updated with its side's step. Either way each side
   keeps its length, its order and every member's modifier.
   */
  function TeamVsEnvironment(m: Libm, playersTeam: seq<MhthRating>, environment: seq<MhthRating>,
                             outcome: Outcomes, config: MhthConfig)
    : (r: (seq<MhthRating>, seq<MhthRating>))
    requires m.Lawful() && ValidConfig(config) && VersusDefined(playersTeam, environment)
    ensures |r.0| == |playersTeam| && |r.1| == |environment|
    ensures playersTeam == [] || environment == [] ==> r == (playersTeam, environment)
    ensures forall i :: 0 <= i < |playersTeam| ==> r.0[i].loadout_modifier == playersTeam[i].loadout_modifier
    ensures forall i :: 0 <= i < |environment| ==> r.1[i].loadout_modifier == environment[i].loadout_modifier
  {
    if playersTeam == [] || environment == [] then (playersTeam, environment)
    else
      var steps := VersusSteps(m, playersTeam, environment, outcome, config);
      (UpdateTeam(m, playersTeam, steps.0, config.uncertainty_tolerance),
       UpdateTeam(m, environment, steps.1, config.uncertainty_tolerance))
  }

  /** `mhth_team_vs_environment`, with its two loops over the members of each side. */
  method MhthTeamVsEnvironment(m: Libm, playersTeam: seq<MhthRating>, environment: seq<MhthRating>,
                               outcome: Outcomes, config: MhthConfig)
    returns (newPlayers: seq<MhthRating>, newEnvironment: seq<MhthRating>)
    requires m.Lawful() && ValidConfig(config) && VersusDefined(playersTeam, environment)
    ensures (newPlayers, newEnvironment) == TeamVsEnvironment(m, playersTeam, environment, outcome, config)
  {
    if playersTeam == [] || environment == [] {
      return playersTeam, environment;
    }
    var playersRating := TeamRating(playersTeam);
    var environmentRating := TeamRating(environment);
    var playersUncertaintySq := TeamUncertaintySq(playersTeam);
    var environmentUncertaintySq := TeamUncertaintySq(environment);
    var c := CValue(m, config, playersUncertaintySq + environmentUncertaintySq);
    var (p1, p2) := PValue(m, playersRating, environmentRating, c);
    var outcome1 := ToChessPoints(outcome);
    var outcome2 := 1.0 - outcome1;
    var playersSmallDelta := SmallDelta(playersUncertaintySq, c, p1, outcome1);
    var environmentSmallDelta := SmallDelta(environmentUncertaintySq, c, p2, outcome2);
    var playersEta := Eta(playersUncertaintySq, c, p1, Gamma(m, playersUncertaintySq, c));
    var environmentEta := Eta(environmentUncertaintySq, c, p2, Gamma(m, environmentUncertaintySq, c));
    var playersStep := TeamStep(playersUncertaintySq, playersSmallDelta, playersEta);
    var environmentStep := TeamStep(environmentUncertaintySq, environmentSmallDelta, environmentEta);
    assert (playersStep, environmentStep) == VersusSteps(m, playersTeam, environment, outcome, config);
    newPlayers := UpdateMembers(m, playersTeam, playersStep, config.uncertainty_tolerance);
    newEnvironment := UpdateMembers(m, environment, environmentStep, config.uncertainty_tolerance);
  }

  /** A draw between two non-empty sides with equal summed skill changes no rating. */
  lemma {:induction false} TeamDrawOfEqualSides(m: Libm, playersTeam: seq<MhthRating>, environment: seq<MhthRating>,
                                                config: MhthConfig)
    requires m.Lawful() && ValidConfig(config) && VersusDefined(playersTeam, environment)
    requires TeamRating(playersTeam) == TeamRating(environment)
    ensures var r := TeamVsEnvironment(m, playersTeam, environment, Draw, config);
      && (forall i :: 0 <= i < |playersTeam| ==> r.0[i].rating == playersTeam[i].rating)
      && (forall i :: 0 <= i < |environment| ==> r.1[i].rating == environment[i].rating)
  {
    if playersTeam != [] && environment != [] {
      var steps := VersusSteps(m, playersTeam, environment, Draw, config);
      assert steps.0.omega == 0.0 && steps.1.omega == 0.0;
    }
  }

  /** A win raises the rating of every player with a non-zero uncertainty and lowers that of
      every such environment member; a loss does the reverse. */
  lemma {:induction false} TeamOutcomeDirection(m: Libm, playersTeam: seq<MhthRating>, environment: seq<MhthRating>,
                                                outcome: Outcomes, config: MhthConfig)
    requires m.Lawful() && ValidConfig(config) && VersusDefined(playersTeam, environment)
    requires playersTeam != [] && environment != []
    ensures var r := TeamVsEnvironment(m, playersTeam, environment, outcome, config);
      && (forall i :: 0 <= i < |playersTeam| && playersTeam[i].uncertainty != 0.0 ==>
            (outcome == Successful ==> r.0[i].rating > playersTeam[i].rating)
            && (outcome == Failure ==> r.0[i].rating < playersTeam[i].rating))
      && (forall i :: 0 <= i < |environment| && environment[i].uncertainty != 0.0 ==>
            (outcome == Successful ==> r.1[i].rating < environment[i].rating)
            && (outcome == Failure ==> r.1[i].rating > environment[i].rating))
  {
    var steps := VersusSteps(m, playersTeam, environment, outcome, config);
    assert steps.0.uncertaintySq > 0.0 && steps.1.uncertaintySq > 0.0;
  }

  /** With the tolerance in [0, 1], no member's uncertainty grows or becomes negative. */
  lemma {:induction false} TeamUncertaintyNonIncreasing(m: Libm, playersTeam: seq<MhthRating>,
                                                        environment: seq<MhthRating>, outcome: Outcomes,
                                                        config: MhthConfig)
    requires m.Lawful() && ValidConfig(config) && ToleranceInRange(config) && VersusDefined(playersTeam, environment)
    ensures var r := TeamVsEnvironment(m, playersTeam, environment, outcome, config);
      && (forall i :: 0 <= i < |playersTeam| && playersTeam[i].uncertainty >= 0.0 ==>
            0.0 <= r.0[i].uncertainty <= playersTeam[i].uncertainty)
      && (forall i :: 0 <= i < |environment| && environment[i].uncertainty >= 0.0 ==>
            0.0 <= r.1[i].uncertainty <= environment[i].uncertainty)
  {
    if playersTeam != [] && environment != [] {
      var steps := VersusSteps(m, playersTeam, environment, outcome, config);
      assert steps.0.uncertaintySq > 0.0 && steps.1.uncertaintySq > 0.0;
    }
  }

  /** `expected_team_vs_environment`: the win probabilities of the two summed skills. */
  function ExpectedTeamVsEnvironment(m: Libm, playersTeam: seq<MhthRating>, environment: seq<MhthRating>,
                                     config: MhthConfig)
    : (r: (real, real))
    requires m.Lawful() && ValidConfig(config)
    ensures 0.0 < r.0 < 1.0 && 0.0 < r.1 < 1.0 && r.0 + r.1 == 1.0
    ensures TeamRating(playersTeam) == TeamRating(environment) ==> r.0 == 0.5 == r.1
    ensures r.0 > 0.5 <==> TeamRating(playersTeam) > TeamRating(environment)
    ensures r.0 < 0.5 <==> TeamRating(playersTeam) < TeamRating(environment)
  {
    var c := CValue(m, config, TeamUncertaintySq(playersTeam) + TeamUncertaintySq(environment));
    PValue(m, TeamRating(playersTeam), TeamRating(environment), c)
  }

  /** For two one-member sides the team expectation is `expected_score` of the two ratings. */
  lemma {:induction false} ExpectedTeamOfSingletons(m: Libm, player: MhthRating, environment: MhthRating,
                                                    config: MhthConfig)
    requires m.Lawful() && ValidConfig(config)
    ensures ExpectedTeamVsEnvironment(m, [player], [environment], config) == ExpectedScore(m, player, environment, config)
  {
    assert [player][..0] == [] && [environment][..0] == [];
    assert TeamRating([player]) == Skill(player);
    assert TeamRating([environment]) == Skill(environment);
    assert TeamUncertaintySq([player]) == Sq(player.uncertainty);
    assert TeamUncertaintySq([environment]) == Sq(environment.uncertainty);
  }
}
