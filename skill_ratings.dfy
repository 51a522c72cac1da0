/**
 Outcome and rank values of the skillratings crate (crates/skillratings/src/lib.rs):
 the three-valued outcome of a two-sided match and the rank of a team in a
 multi-team match.
 */
module SkillRatings {

  /** The result of a match, from the perspective of the first side. */
  datatype Outcomes = Successful | Failure | Draw

  /** Converts an outcome into chess points: 1 for a win, 0.5 for a draw, 0 for a loss. */
  function ToChessPoints(outcome: Outcomes): (points: real)
    ensures 0.0 <= points <= 1.0
    ensures 0.0 <= 1.0 - points <= 1.0
    ensures points == 1.0 <==> outcome == Successful
    ensures points == 0.5 <==> outcome == Draw
    ensures points == 0.0 <==> outcome == Failure
  {
    match outcome
    case Successful => 1.0
    case Draw => 0.5
    case Failure => 0.0
  }

  /** Rust's `usize` on a 64-bit target. */
  type Usize = x: int | 0 <= x < 0x1_0000_0000_0000_0000

  /** The three-way result of comparing two ordered values. */
  datatype Ordering = Less | Equal | Greater

  function CompareUsize(a: Usize, b: Usize): Ordering
  {
    if a < b then Less else if a == b then Equal else Greater
  }

  /**
   The placement of one team in a multi-team match: the lower the rank, the
   better; teams that tie share a rank.
   */
  datatype MultiTeamOutcome = MultiTeamOutcome(rank: Usize)

  function New(rank: Usize): MultiTeamOutcome
  {
    MultiTeamOutcome(rank)
  }

  function Rank(outcome: MultiTeamOutcome): Usize
  {
    outcome.rank
  }

  /** `From<usize> for MultiTeamOutcome`. */
  function FromUsize(v: Usize): MultiTeamOutcome
  {
    MultiTeamOutcome(v)
  }

  /** `From<MultiTeamOutcome> for usize`. */
  function ToUsize(v: MultiTeamOutcome): Usize
  {
    v.rank
  }

  /** The derived `Ord` on the newtype: compare the wrapped ranks. */
  function Cmp(a: MultiTeamOutcome, b: MultiTeamOutcome): Ordering
  {
    CompareUsize(a.rank, b.rank)
  }

  /** `new` and `from` build the same value and both accessors give the rank back. */
  lemma RankRoundTrip(r: Usize)
    ensures Rank(New(r)) == r
    ensures FromUsize(r) == New(r)
    ensures ToUsize(FromUsize(r)) == r
    ensures forall o: MultiTeamOutcome :: FromUsize(ToUsize(o)) == o
  {
  }

  /** The ordering of outcomes is the ordering of their ranks: a lower rank is less. */
  lemma CmpFollowsRank(a: MultiTeamOutcome, b: MultiTeamOutcome)
    ensures Cmp(a, b) == Less <==> Rank(a) < Rank(b)
    ensures Cmp(a, b) == Equal <==> a == b
    ensures Cmp(a, b) == Greater <==> Rank(a) > Rank(b)
    ensures Cmp(a, b) == Less <==> Cmp(b, a) == Greater
  {
  }
}
