/**
 The MHTH rating engine, part one (crates/skillratings/src/mhth.rs): the rating
 value, the configuration, the formula helpers of the logistic (Bradley-Terry)
 Bayesian update of Weng and Lin extended with a per-player loadout modifier,
 the player-versus-environment update, the chained rating period and the
 two-sided expected scores. Team updates are in module MhthTeams.

 Every `f64` is a real; `a.mul_add(b, c)` is `a * b + c`; `x.powi(2)` is `Sq(x)`;
 `exp` and `sqrt` come from a lawful `Libm`.
 */
module Mhth {
  import opened Wrappers
  import opened Numerics
  import opened SkillRatings

  /** A player's (or the environment's) rating: mu, loadout modifier and sigma. */
  datatype MhthRating = MhthRating(rating: real, loadout_modifier: real, uncertainty: real)

  /** The rating of another system's type, of which only the two fields used here are modelled. */
  datatype TrueSkillRating = TrueSkillRating(rating: real, uncertainty: real)

  /** `Rating::rating`: the skill the engine compares, rating plus loadout modifier. */
  function Skill(r: MhthRating): real
  {
    r.rating + r.loadout_modifier
  }

  /** `Rating::uncertainty`: always present for this system. */
  function Uncertainty(r: MhthRating): Option<real>
  {
    Some(r.uncertainty)
  }

  /** `rating_unmod`: the rating without the loadout modifier. */
  function RatingUnmod(r: MhthRating): real
  {
    r.rating
  }

  /** `MhthRating::new` / `Default`: rating 25, modifier 1, uncertainty 25/3. */
  function NewRating(): MhthRating
  {
    MhthRating(25.0, 1.0, 25.0 / 3.0)
  }

  /** `Rating::new`: missing values fall back to the defaults; the modifier is always 1. */
  function FromOptions(rating: Option<real>, uncertainty: Option<real>): MhthRating
  {
    MhthRating(
      if rating.Some? then rating.value else 25.0,
      1.0,
      if uncertainty.Some? then uncertainty.value else 25.0 / 3.0)
  }

  /** `From<(f64, f64)>`: rating and uncertainty, modifier 1. */
  function FromPair(rating: real, uncertainty: real): MhthRating
  {
    MhthRating(rating, 1.0, uncertainty)
  }

  /** `From<(f64, f64, f64)>`: rating, modifier and uncertainty. */
  function FromTriple(rating: real, modifier: real, uncertainty: real): MhthRating
  {
    MhthRating(rating, modifier, uncertainty)
  }

  /** `From<TrueSkillRating>`: keeps rating and uncertainty, modifier 1. */
  function FromTrueSkill(t: TrueSkillRating): MhthRating
  {
    MhthRating(t.rating, 1.0, t.uncertainty)
  }

  /** `loadout_modifier(self, m)`: a copy with another modifier. */
  function WithLoadoutModifier(r: MhthRating, modifier: real): MhthRating
  {
    r.(loadout_modifier := modifier)
  }

  /** How the constructors and accessors relate to each other and to the default. */
  lemma RatingConstructors(r: real, m: real, u: real, t: TrueSkillRating, x: MhthRating)
    ensures FromOptions(None, None) == NewRating()
    ensures FromOptions(Some(r), Some(u)) == FromPair(r, u) == FromTriple(r, 1.0, u)
    ensures FromTrueSkill(t) == FromPair(t.rating, t.uncertainty)
    ensures Skill(NewRating()) == 26.0 && Uncertainty(x) == Some(x.uncertainty)
    ensures Skill(WithLoadoutModifier(x, m)) == RatingUnmod(x) + m
    ensures WithLoadoutModifier(x, x.loadout_modifier) == x
  {
  }

  /** The engine's constants: beta (skill-class width) and the lower bound of the
      uncertainty shrink factor. */
  datatype MhthConfig = MhthConfig(beta: real, uncertainty_tolerance: real)

  /** `MhthConfig::new` / `Default`: beta 25/6 and tolerance 0.000001. */
  function DefaultConfig(): (config: MhthConfig)
    ensures ValidConfig(config) && ToleranceInRange(config)
  {
    MhthConfig(25.0 / 6.0, 0.000001)
  }

  /**
   The model needs c > 0 to divide by it; beta != 0 guarantees it for every
   comparison. This is more than the formula needs: with beta = 0, c is still
   positive whenever some uncertainty in the comparison is non-zero.
   */
  predicate ValidConfig(config: MhthConfig)
  {
    config.beta != 0.0
  }

  /** The documented range of the tolerance ("do not set this to a negative value"),
      capped at 1 for the theorems that uncertainty never grows. */
  predicate ToleranceInRange(config: MhthConfig)
  {
    0.0 <= config.uncertainty_tolerance <= 1.0
  }

  /** c: the combined standard deviation `sqrt(2 beta^2 + spread)` of a comparison. */
  function CValue(m: Libm, config: MhthConfig, spread: real): (c: real)
    requires m.Lawful() && ValidConfig(config) && spread >= 0.0
    ensures c > 0.0 && Sq(c) == 2.0 * Sq(config.beta) + spread
  {
    SqSign(config.beta);
    SqrtLaw(m, 2.0 * Sq(config.beta) + spread);
    SqrtPositive(m, 2.0 * Sq(config.beta) + spread);
    m.sqrt(2.0 * Sq(config.beta) + spread)
  }

  /** c of a one-against-one comparison of two sides with uncertainties `ua` and `ub`. */
  function PairC(m: Libm, config: MhthConfig, ua: real, ub: real): (c: real)
    requires m.Lawful() && ValidConfig(config)
    ensures c > 0.0 && Sq(c) == 2.0 * Sq(config.beta) + Sq(ua) + Sq(ub)
  {
    SqSign(ua);
    SqSign(ub);
    CValue(m, config, Sq(ua) + Sq(ub))
  }

  /** `p_value`: the Bradley-Terry win probabilities of two ratings. */
  function PValue(m: Libm, ratingOne: real, ratingTwo: real, c: real): (p: (real, real))
    requires m.Lawful() && c != 0.0
    ensures 0.0 < p.0 < 1.0 && 0.0 < p.1 < 1.0 && p.0 + p.1 == 1.0
    ensures ratingOne == ratingTwo ==> p.0 == 0.5 == p.1
    ensures c > 0.0 ==> (p.0 > 0.5 <==> ratingOne > ratingTwo)
    ensures c > 0.0 ==> (p.0 < 0.5 <==> ratingOne < ratingTwo)
  {
    var e1 := m.exp(ratingOne / c);
    var e2 := m.exp(ratingTwo / c);
    var expOne := e1 / (e1 + e2);
    PValueLaws(m, ratingOne, ratingTwo, c);
    (expOne, 1.0 - expOne)
  }

  lemma PValueLaws(m: Libm, a: real, b: real, c: real)
    requires m.Lawful() && c != 0.0
    ensures var e1, e2 := m.exp(a / c), m.exp(b / c);
      && 0.0 < e1 / (e1 + e2) < 1.0
      && (a == b ==> e1 / (e1 + e2) == 0.5)
      && (c > 0.0 ==> (e1 / (e1 + e2) > 0.5 <==> a > b))
      && (c > 0.0 ==> (e1 / (e1 + e2) < 0.5 <==> a < b))
  {
    var e1, e2 := m.exp(a / c), m.exp(b / c);
    Fraction(e1, e2);
    if c > 0.0 {
      if a < b {
        DivMonotone(a, b, c);
      } else if b < a {
        DivMonotone(b, a, c);
      }
      ExpOrder(m, a / c, b / c);
    }
  }

  /** Swapping the two ratings swaps the two probabilities. */
  lemma {:induction false} PValueSwap(m: Libm, a: real, b: real, c: real)
    requires m.Lawful() && c != 0.0
    ensures PValue(m, b, a, c).0 == PValue(m, a, b, c).1
    ensures PValue(m, b, a, c).1 == PValue(m, a, b, c).0
  {
    var e1, e2 := m.exp(a / c), m.exp(b / c);
    Fraction(e1, e2);
    assert e2 + e1 == e1 + e2;
  }

  /** A higher opposing rating strictly lowers the first side's win probability. */
  lemma {:induction false} PValueDecreasing(m: Libm, a: real, b1: real, b2: real, c: real)
    requires m.Lawful() && c > 0.0 && b1 < b2
    ensures PValue(m, a, b1, c).0 > PValue(m, a, b2, c).0
  {
    var e1, f1, f2 := m.exp(a / c), m.exp(b1 / c), m.exp(b2 / c);
    DivMonotone(b1, b2, c);
    ExpOrder(m, b1 / c, b2 / c);
    FractionDecreasing(e1, f1, f2);
  }

  /** `small_delta`: the step of a team's mean, sigma^2/c times (score - p). */
  function SmallDelta(teamUncertaintySq: real, c: real, p: real, score: real): (d: real)
    requires c != 0.0
    ensures score == p ==> d == 0.0
    ensures teamUncertaintySq > 0.0 && c > 0.0 ==> (d > 0.0 <==> score > p) && (d < 0.0 <==> score < p)
  {
    StepSign(teamUncertaintySq, c, score - p);
    (teamUncertaintySq / c) * (score - p)
  }

  /** The sign of (k / c) * x for positive k and c is the sign of x. */
  lemma StepSign(k: real, c: real, x: real)
    requires c != 0.0
    ensures k > 0.0 && c > 0.0 ==> (k / c * x > 0.0 <==> x > 0.0) && (k / c * x < 0.0 <==> x < 0.0)
  {
    if k > 0.0 && c > 0.0 {
      DivPositive(k, c);
      if x > 0.0 {
        MulPositive(k / c, x);
      } else if x < 0.0 {
        MulPositive(k / c, -x);
      }
    }
  }

  /** `gamma`: sqrt(sigma^2)/c. */
  function Gamma(m: Libm, teamUncertaintySq: real, c: real): (g: real)
    requires m.Lawful() && c != 0.0
    ensures teamUncertaintySq >= 0.0 && c > 0.0 ==> g >= 0.0
  {
    GammaSign(m, teamUncertaintySq, c);
    m.sqrt(teamUncertaintySq) / c
  }

  lemma GammaSign(m: Libm, teamUncertaintySq: real, c: real)
    requires m.Lawful() && c != 0.0
    ensures teamUncertaintySq >= 0.0 && c > 0.0 ==> m.sqrt(teamUncertaintySq) / c >= 0.0
  {
    if teamUncertaintySq >= 0.0 && c > 0.0 {
      SqrtLaw(m, teamUncertaintySq);
      DivNonNegative(m.sqrt(teamUncertaintySq), c);
    }
  }

  /** `eta`: gamma sigma^2 / c^2 p (1 - p), the shrink of a team's variance. */
  function Eta(teamUncertaintySq: real, c: real, p: real, gamma: real): (e: real)
    requires c != 0.0
    ensures gamma >= 0.0 && teamUncertaintySq >= 0.0 && 0.0 <= p <= 1.0 ==> e >= 0.0
  {
    SqSign(c);
    EtaNonNegative(teamUncertaintySq, c, p, gamma);
    gamma * teamUncertaintySq / Sq(c) * p * (1.0 - p)
  }

  lemma EtaNonNegative(teamUncertaintySq: real, c: real, p: real, gamma: real)
    requires Sq(c) > 0.0
    ensures gamma >= 0.0 && teamUncertaintySq >= 0.0 && 0.0 <= p <= 1.0 ==>
      gamma * teamUncertaintySq / Sq(c) * p * (1.0 - p) >= 0.0
  {
    if gamma >= 0.0 && teamUncertaintySq >= 0.0 && 0.0 <= p <= 1.0 {
      MulNonNegative(gamma, teamUncertaintySq);
      DivNonNegative(gamma * teamUncertaintySq, Sq(c));
      MulNonNegative(gamma * teamUncertaintySq / Sq(c), p);
      MulNonNegative(gamma * teamUncertaintySq / Sq(c) * p, 1.0 - p);
    }
  }

  /** `new_rating`: a one-against-one mean step, sigma^2/c (score - p) added to the rating. */
  function NewRatingValue(rating: real, uncertainty: real, c: real, p: real, score: real): (r: real)
    requires c != 0.0
    ensures score == p ==> r == rating
    ensures uncertainty != 0.0 && c > 0.0 ==> (r > rating <==> score > p) && (r < rating <==> score < p)
  {
    SqSign(uncertainty);
    StepSign(Sq(uncertainty), c, score - p);
    (Sq(uncertainty) / c) * (score - p) + rating
  }

  /** The factor `max(1 - (sigma/c)^3 p (1 - p), tolerance)` by which `new_uncertainty`
      scales sigma^2. */
  function ShrinkFactor(uncertainty: real, c: real, p: real, tolerance: real): (f: real)
    requires c != 0.0
    ensures f >= tolerance
    ensures tolerance <= 1.0 && uncertainty >= 0.0 && c > 0.0 && 0.0 <= p <= 1.0 ==> f <= 1.0
  {
    CubeShrinkNonNegative(uncertainty, c, p);
    Max(1.0 - Cube(uncertainty / c) * p * (1.0 - p), tolerance)
  }

  lemma CubeShrinkNonNegative(uncertainty: real, c: real, p: real)
    requires c != 0.0
    ensures uncertainty >= 0.0 && c > 0.0 && 0.0 <= p <= 1.0 ==> Cube(uncertainty / c) * p * (1.0 - p) >= 0.0
  {
    if uncertainty >= 0.0 && c > 0.0 && 0.0 <= p <= 1.0 {
      var s := uncertainty / c;
      DivNonNegative(uncertainty, c);
      SqSign(s);
      MulNonNegative(Sq(s), s);
      MulNonNegative(Cube(s), p);
      MulNonNegative(Cube(s) * p, 1.0 - p);
    }
  }

  /** `new_uncertainty`: sigma scaled by the square root of the shrink factor. */
  function NewUncertaintyValue(m: Libm, uncertainty: real, c: real, p: real, tolerance: real): (u: real)
    requires m.Lawful() && c != 0.0
    ensures tolerance >= 0.0 ==> u >= 0.0 && Sq(u) >= Sq(uncertainty) * tolerance
    ensures tolerance > 0.0 && uncertainty != 0.0 ==> u > 0.0
    ensures 0.0 <= tolerance <= 1.0 && uncertainty >= 0.0 && c > 0.0 && 0.0 <= p <= 1.0 ==> u <= uncertainty
  {
    var factor := ShrinkFactor(uncertainty, c, p, tolerance);
    ScaledUncertaintyLaws(m, uncertainty, factor, tolerance);
    m.sqrt(Sq(uncertainty) * factor)
  }

  /** sigma scaled by the square root of a factor f >= tolerance: non-negative, squaring to
      at least sigma^2 tolerance, positive when sigma and the tolerance are non-zero, and at
      most sigma when f is at most 1. */
  lemma ScaledUncertaintyLaws(m: Libm, uncertainty: real, f: real, tolerance: real)
    requires m.Lawful() && tolerance <= f
    ensures tolerance >= 0.0 ==>
      m.sqrt(Sq(uncertainty) * f) >= 0.0 && Sq(m.sqrt(Sq(uncertainty) * f)) >= Sq(uncertainty) * tolerance
    ensures tolerance > 0.0 && uncertainty != 0.0 ==> m.sqrt(Sq(uncertainty) * f) > 0.0
    ensures 0.0 <= tolerance && f <= 1.0 && uncertainty >= 0.0 ==> m.sqrt(Sq(uncertainty) * f) <= uncertainty
  {
    SqSign(uncertainty);
    ShrinkLaws(m, Sq(uncertainty), f, tolerance);
    ShrinkAtMostOne(m, uncertainty, f);
  }

  /** The square root of x * f, f >= tolerance >= 0, is non-negative, squares to at least
      x * tolerance, and is positive when x and the tolerance are. */
  lemma ShrinkLaws(m: Libm, x: real, f: real, tolerance: real)
    requires m.Lawful() && x >= 0.0 && tolerance <= f
    ensures tolerance >= 0.0 ==> m.sqrt(x * f) >= 0.0 && Sq(m.sqrt(x * f)) >= x * tolerance
    ensures x > 0.0 && tolerance > 0.0 ==> m.sqrt(x * f) > 0.0
  {
    if tolerance >= 0.0 {
      MulNonNegative(x, f);
      SqrtLaw(m, x * f);
      assert x * f - x * tolerance == x * (f - tolerance);
      MulNonNegative(x, f - tolerance);
      if x > 0.0 && tolerance > 0.0 {
        MulPositive(x, f);
        SqrtPositive(m, x * f);
      }
    }
  }

  /** Scaling sigma^2 by a factor in [0, 1] cannot raise sigma. */
  lemma ShrinkAtMostOne(m: Libm, s: real, f: real)
    requires m.Lawful()
    ensures s >= 0.0 && 0.0 <= f <= 1.0 ==> m.sqrt(Sq(s) * f) <= s
  {
    if s >= 0.0 && 0.0 <= f <= 1.0 {
      SqSign(s);
      MulNonNegative(Sq(s), f);
      assert Sq(s) - Sq(s) * f == Sq(s) * (1.0 - f);
      MulNonNegative(Sq(s), 1.0 - f);
      SqrtAtMost(m, Sq(s) * f, s);
    }
  }

  /** `mhth`: one player against the environment. As the source does, the player's
      win probability compares the player's rating plus modifier with the environment's
      bare rating (lemmas MhthSides and BareExpectation). */
  function Mhth(m: Libm, player: MhthRating, environment: MhthRating, outcome: Outcomes, config: MhthConfig)
    : (r: (MhthRating, MhthRating))
    requires m.Lawful() && ValidConfig(config)
    ensures r.0.loadout_modifier == player.loadout_modifier
    ensures r.1.loadout_modifier == environment.loadout_modifier
    ensures player.uncertainty != 0.0 ==>
      && (outcome == Successful ==> r.0.rating > player.rating)
      && (outcome == Failure ==> r.0.rating < player.rating)
    ensures environment.uncertainty != 0.0 ==>
      && (outcome == Successful ==> r.1.rating < environment.rating)
      && (outcome == Failure ==> r.1.rating > environment.rating)
    ensures ToleranceInRange(config) && player.uncertainty >= 0.0 ==>
      0.0 <= r.0.uncertainty <= player.uncertainty
    ensures ToleranceInRange(config) && environment.uncertainty >= 0.0 ==>
      0.0 <= r.1.uncertainty <= environment.uncertainty
  {
    var c := PairC(m, config, player.uncertainty, environment.uncertainty);
    var (p1, p2) := PValue(m, Skill(player), environment.rating, c);
    var outcome1 := ToChessPoints(outcome);
    var outcome2 := 1.0 - outcome1;
    (UpdateSide(m, player, c, p1, outcome1, config.uncertainty_tolerance),
     UpdateSide(m, environment, c, p2, outcome2, config.uncertainty_tolerance))
  }

  /** One side of `mhth`: `new_rating` on rating plus modifier, minus the modifier, the
      modifier kept, and `new_uncertainty`. The bare rating moves by sigma^2/c (score - p). */
  function UpdateSide(m: Libm, side: MhthRating, c: real, p: real, score: real, tolerance: real): (r: MhthRating)
    requires m.Lawful() && c > 0.0
    ensures r.loadout_modifier == side.loadout_modifier
    ensures r.rating == side.rating + (Sq(side.uncertainty) / c) * (score - p)
    ensures side.uncertainty != 0.0 ==> (r.rating > side.rating <==> score > p) && (r.rating < side.rating <==> score < p)
    ensures 0.0 <= tolerance <= 1.0 && side.uncertainty >= 0.0 && 0.0 <= p <= 1.0 ==>
      0.0 <= r.uncertainty <= side.uncertainty
  {
    RatingStep(side, c, p, score);
    MhthRating(
      NewRatingValue(Skill(side), side.uncertainty, c, p, score) - side.loadout_modifier,
      side.loadout_modifier,
      NewUncertaintyValue(m, side.uncertainty, c, p, tolerance))
  }

  /** A step of `new_rating` on rating plus modifier, minus the modifier, moves the bare rating
      by the same amount. */
  lemma RatingStep(side: MhthRating, c: real, p: real, score: real)
    requires c != 0.0
    ensures NewRatingValue(Skill(side), side.uncertainty, c, p, score) - side.loadout_modifier
         == side.rating + (Sq(side.uncertainty) / c) * (score - p)
  {
  }

  /** `expected_score`: the Bradley-Terry probabilities of two ratings, modifiers included. */
  function ExpectedScore(m: Libm, player: MhthRating, environment: MhthRating, config: MhthConfig)
    : (r: (real, real))
    requires m.Lawful() && ValidConfig(config)
    ensures 0.0 < r.0 < 1.0 && 0.0 < r.1 < 1.0 && r.0 + r.1 == 1.0
    ensures Skill(player) == Skill(environment) ==> r.0 == 0.5 == r.1
    ensures r.0 > 0.5 <==> Skill(player) > Skill(environment)
    ensures r.0 < 0.5 <==> Skill(player) < Skill(environment)
  {
    PValue(m, Skill(player), Skill(environment), PairC(m, config, player.uncertainty, environment.uncertainty))
  }

  /** Expected scores of two ratings are symmetric: swapping the sides swaps the pair. */
  lemma {:induction false} ExpectedScoreSymmetric(m: Libm, a: MhthRating, b: MhthRating, config: MhthConfig)
    requires m.Lawful() && ValidConfig(config)
    ensures ExpectedScore(m, b, a, config).0 == ExpectedScore(m, a, b, config).1
  {
    var c := PairC(m, config, a.uncertainty, b.uncertainty);
    assert PairC(m, config, b.uncertainty, a.uncertainty) == c by {
      assert Sq(b.uncertainty) + Sq(a.uncertainty) == Sq(a.uncertainty) + Sq(b.uncertainty);
    }
    PValueSwap(m, Skill(a), Skill(b), c);
  }

  /**
   The update rule of `mhth`: each side is updated on its own by UpdateSide, with the same
   c and the environment scoring 1 - score; the expectations are the two win probabilities
   of the player against the environment's bare rating, which are `expected_score` against
   the environment with its modifier dropped (lemma BareExpectation) and differ from
   `expected_score` itself whenever the environment's modifier is not zero (lemma
   BareEnvironmentDiffers).
   */
  lemma MhthSides(m: Libm, player: MhthRating, environment: MhthRating, outcome: Outcomes, config: MhthConfig)
    requires m.Lawful() && ValidConfig(config)
    ensures var c := PairC(m, config, player.uncertainty, environment.uncertainty);
      var p := PValue(m, Skill(player), environment.rating, c);
      var o := ToChessPoints(outcome);
      Mhth(m, player, environment, outcome, config)
      == (UpdateSide(m, player, c, p.0, o, config.uncertainty_tolerance),
          UpdateSide(m, environment, c, p.1, 1.0 - o, config.uncertainty_tolerance))
  {
  }

  /** `expected_score` against the environment without its modifier is the probability
      `mhth` computes. */
  lemma BareExpectation(m: Libm, player: MhthRating, environment: MhthRating, config: MhthConfig)
    requires m.Lawful() && ValidConfig(config)
    ensures ExpectedScore(m, player, environment.(loadout_modifier := 0.0), config)
         == PValue(m, Skill(player), environment.rating,
                   PairC(m, config, player.uncertainty, environment.uncertainty))
  {
    assert Skill(environment.(loadout_modifier := 0.0)) == environment.rating;
  }

  /** The expectation `mhth` uses differs from `expected_score` whenever the environment's
      modifier is not zero: a positive modifier makes the player's true chance lower. */
  lemma {:induction false} BareEnvironmentDiffers(m: Libm, player: MhthRating, environment: MhthRating,
                                                  config: MhthConfig)
    requires m.Lawful() && ValidConfig(config)
    ensures environment.loadout_modifier > 0.0 ==>
      ExpectedScore(m, player, environment.(loadout_modifier := 0.0), config).0
        > ExpectedScore(m, player, environment, config).0
    ensures environment.loadout_modifier < 0.0 ==>
      ExpectedScore(m, player, environment.(loadout_modifier := 0.0), config).0
        < ExpectedScore(m, player, environment, config).0
  {
    var bare := environment.(loadout_modifier := 0.0);
    var c := PairC(m, config, player.uncertainty, environment.uncertainty);
    assert Skill(bare) == environment.rating;
    if environment.loadout_modifier > 0.0 {
      PValueDecreasing(m, Skill(player), environment.rating, Skill(environment), c);
    } else if environment.loadout_modifier < 0.0 {
      PValueDecreasing(m, Skill(player), Skill(environment), environment.rating, c);
    }
  }

  /** `expected_score_rating_period`: the player's expected score against each opponent. */
  function ExpectedScoreRatingPeriod(m: Libm, player: MhthRating, opponents: seq<MhthRating>, config: MhthConfig)
    : (r: seq<real>)
    requires m.Lawful() && ValidConfig(config)
    ensures |r| == |opponents|
    ensures forall i :: 0 <= i < |r| ==> 0.0 < r[i] < 1.0
    ensures forall i :: 0 <= i < |r| ==> (r[i] > 0.5 <==> Skill(player) > Skill(opponents[i]))
  {
    seq(|opponents|, i requires 0 <= i < |opponents| => ExpectedScore(m, player, opponents[i], config).0)
  }

  /** The running state of `mhth_rating_period`: `player_rating` and `player_uncertainty`. */
  datatype PeriodState = PeriodState(rating: real, uncertainty: real)

  /** One game of a rating period, as the loop body computes it: the probability compares
      the running rating plus the modifier (again) with the opponent's rating plus modifier. */
  function PeriodStep(m: Libm, config: MhthConfig, modifier: real, s: PeriodState, game: (MhthRating, Outcomes))
    : PeriodState
    requires m.Lawful() && ValidConfig(config)
  {
    var (opponent, result) := game;
    var c := PairC(m, config, s.uncertainty, opponent.uncertainty);
    var p := PValue(m, s.rating + modifier, Skill(opponent), c).0;
    var outcome := ToChessPoints(result);
    PeriodState(
      NewRatingValue(s.rating + modifier, s.uncertainty, c, p, outcome) - modifier,
      NewUncertaintyValue(m, s.uncertainty, c, p, config.uncertainty_tolerance))
  }

  /** The games of a period applied in order, each to the state the previous one produced. */
  function PeriodFold(m: Libm, config: MhthConfig, modifier: real, s: PeriodState, games: seq<(MhthRating, Outcomes)>)
    : PeriodState
    requires m.Lawful() && ValidConfig(config)
    decreases |games|
  {
    if games == [] then s
    else PeriodFold(m, config, modifier, PeriodStep(m, config, modifier, s, games[0]), games[1..])
  }

  /** `mhth_rating_period`: the loop over the results. The running rating starts at rating
      plus modifier and the result keeps that modifier folded in, so an empty period
      returns rating + modifier as the new rating. */
  method MhthRatingPeriod(m: Libm, player: MhthRating, results: seq<(MhthRating, Outcomes)>, config: MhthConfig)
    returns (r: MhthRating)
    requires m.Lawful() && ValidConfig(config)
    ensures r.loadout_modifier == player.loadout_modifier
    ensures PeriodState(r.rating, r.uncertainty)
         == PeriodFold(m, config, player.loadout_modifier, PeriodState(Skill(player), player.uncertainty), results)
    ensures results == [] ==>
      r == MhthRating(player.rating + player.loadout_modifier, player.loadout_modifier, player.uncertainty)
  {
    ghost var start := PeriodState(Skill(player), player.uncertainty);
    var playerRating := player.rating + player.loadout_modifier;
    var playerUncertainty := player.uncertainty;
    for i := 0 to |results|
      invariant PeriodFold(m, config, player.loadout_modifier, PeriodState(playerRating, playerUncertainty), results[i..])
             == PeriodFold(m, config, player.loadout_modifier, start, results)
    {
      PeriodFoldFirst(m, config, player.loadout_modifier, PeriodState(playerRating, playerUncertainty), results, i);
      playerRating, playerUncertainty :=
        PeriodGame(m, config, player.loadout_modifier, playerRating, playerUncertainty, results[i]);
    }
    r := MhthRating(playerRating, player.loadout_modifier, playerUncertainty);
  }

  /** The body of the loop of `mhth_rating_period`: one game against `opponent`. */
  method PeriodGame(m: Libm, config: MhthConfig, modifier: real, playerRating: real, playerUncertainty: real,
                    game: (MhthRating, Outcomes))
    returns (newRating: real, newUncertainty: real)
    requires m.Lawful() && ValidConfig(config)
    ensures PeriodState(newRating, newUncertainty)
         == PeriodStep(m, config, modifier, PeriodState(playerRating, playerUncertainty), game)
  {
    var (opponent, result) := game;
    var c := PairC(m, config, playerUncertainty, opponent.uncertainty);
    var p := PValue(m, playerRating + modifier, opponent.rating + opponent.loadout_modifier, c).0;
    var outcome := ToChessPoints(result);
    newRating := NewRatingValue(playerRating + modifier, playerUncertainty, c, p, outcome) - modifier;
    newUncertainty := NewUncertaintyValue(m, playerUncertainty, c, p, config.uncertainty_tolerance);
  }

  /** The first game of a non-empty rest of a period is applied first. */
  lemma PeriodFoldFirst(m: Libm, config: MhthConfig, modifier: real, s: PeriodState,
                        games: seq<(MhthRating, Outcomes)>, i: nat)
    requires m.Lawful() && ValidConfig(config) && i < |games|
    ensures PeriodFold(m, config, modifier, s, games[i..])
         == PeriodFold(m, config, modifier, PeriodStep(m, config, modifier, s, games[i]), games[i + 1..])
  {
    assert games[i..][1..] == games[i + 1..];
  }

  /** A period split in two is the second part applied to the result of the first. */
  lemma {:induction false} PeriodFoldAppend(m: Libm, config: MhthConfig, modifier: real, s: PeriodState,
                                            xs: seq<(MhthRating, Outcomes)>, ys: seq<(MhthRating, Outcomes)>)
    requires m.Lawful() && ValidConfig(config)
    ensures PeriodFold(m, config, modifier, s, xs + ys)
         == PeriodFold(m, config, modifier, PeriodFold(m, config, modifier, s, xs), ys)
    decreases |xs|
  {
    if xs == [] {
      assert xs + ys == ys;
    } else {
      assert (xs + ys)[0] == xs[0];
      assert (xs + ys)[1..] == xs[1..] + ys;
      PeriodFoldAppend(m, config, modifier, PeriodStep(m, config, modifier, s, xs[0]), xs[1..], ys);
    }
  }

  /** One game of a period is `mhth` of the running rating (as the player's rating, with the
      player's modifier) against the opponent's rating plus modifier as a bare environment. */
  lemma {:induction false} PeriodStepIsMhth(m: Libm, config: MhthConfig, modifier: real, s: PeriodState,
                                            opponent: MhthRating, result: Outcomes)
    requires m.Lawful() && ValidConfig(config)
    ensures var r := Mhth(m, MhthRating(s.rating, modifier, s.uncertainty),
                          MhthRating(Skill(opponent), 0.0, opponent.uncertainty), result, config).0;
      PeriodStep(m, config, modifier, s, (opponent, result)) == PeriodState(r.rating, r.uncertainty)
  {
    var player := MhthRating(s.rating, modifier, s.uncertainty);
    var environment := MhthRating(Skill(opponent), 0.0, opponent.uncertainty);
  }

  /** Over a whole period the uncertainty never grows and never becomes negative. */
  lemma {:induction false} PeriodUncertaintyNonIncreasing(m: Libm, config: MhthConfig, modifier: real, s: PeriodState,
                                                          games: seq<(MhthRating, Outcomes)>)
    requires m.Lawful() && ValidConfig(config) && ToleranceInRange(config) && s.uncertainty >= 0.0
    ensures 0.0 <= PeriodFold(m, config, modifier, s, games).uncertainty <= s.uncertainty
    decreases |games|
  {
    if games != [] {
      var next := PeriodStep(m, config, modifier, s, games[0]);
      assert 0.0 <= next.uncertainty <= s.uncertainty;
      PeriodUncertaintyNonIncreasing(m, config, modifier, next, games[1..]);
    }
  }
}
