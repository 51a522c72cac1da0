/**
 Match admission (crates/matchmaking/src/rpc/worker/can_match.rs): who may host a
 match, and whether a queued player fits an open match and how far their ping
 deviates. The clock is a parameter: `now` is the reading of the seconds since the
 game's start date, `None` when that reading fails. The numbers the protocol
 assigns to the join modes are a parameter too.
 */
module CanMatch {
  import opened Wrappers
  import opened Integers
  import opened Float
  import opened Text
  import opened Mhth
  import opened Rpc

  /** How far a player's connection is from what the match can bear, best first. */
  datatype PingDeviation = Excellent | Good | Disadvantage | Poor | Worst

  /** Why a player cannot host. */
  datatype Error = JoinOnlyMode | OversidedParty(count: nat, max: nat)

  /** How a player asked to be matched. */
  datatype JoinMode = CreateRoom | JoinRoom | JoinOrCreateRoom

  /** The `i32` each join mode is sent as. */
  datatype JoinModeCodes = JoinModeCodes(createRoom: I32, joinRoom: I32, joinOrCreateRoom: I32)
  {
    function Code(mode: JoinMode): I32
    {
      match mode
      case CreateRoom => createRoom
      case JoinRoom => joinRoom
      case JoinOrCreateRoom => joinOrCreateRoom
    }
  }

  const MAX_PLAYERS: nat := 4

  /**
   `Match::host`: a player who only joins rooms cannot host; a party that with its
   host exceeds the capacity cannot be hosted; otherwise the match holds the party
   followed by the host, in the host's region, under the fresh id `id`.
   */
  function Host(player: QueuedPlayer, party: seq<QueuedPlayer>, id: Uuid, codes: JoinModeCodes): (r: Result<Match, Error>)
    ensures r == Err(JoinOnlyMode) <==> player.join_mode == codes.Code(JoinRoom)
    ensures r == Err(OversidedParty(|party| + 1, MAX_PLAYERS)) <==>
      player.join_mode != codes.Code(JoinRoom) && |party| + 1 > MAX_PLAYERS
    ensures r.Ok? <==> player.join_mode != codes.Code(JoinRoom) && |party| + 1 <= MAX_PLAYERS
    ensures r.Ok? ==>
      && r.value.players == party + [player]
      && r.value.host_id == player.player_id
      && r.value.region == player.region
      && r.value.id == id
      && 1 <= |r.value.players| <= MAX_PLAYERS
  {
    if player.join_mode == codes.Code(JoinRoom) then Err(JoinOnlyMode)
    else if |party| + 1 > MAX_PLAYERS then Err(OversidedParty(|party| + 1, MAX_PLAYERS))
    else Ok(Match(id, party + [player], player.region, player.player_id))
  }

  /** The exact sum of the players' pings. */
  function PingSum(players: seq<QueuedPlayer>): int
  {
    if players == [] then 0 else PingSum(players[..|players| - 1]) + players[|players| - 1].ping
  }

  /** The sum of the players' skills (rating plus loadout modifier). */
  function SkillSum(players: seq<QueuedPlayer>): real
  {
    if players == [] then 0.0 else SkillSum(players[..|players| - 1]) + Skill(players[|players| - 1].skillrating)
  }

  /** The match's average ping: the `i32` sum of the pings (wrapping) over the player count. */
  function AveragePing(m: Match): (r: F64)
    ensures |m.players| == 0 ==> r.NaN?
    ensures |m.players| > 0 ==> r.Finite? && r.value == WrapI32(PingSum(m.players)) as real / |m.players| as real
  {
    Div(FromInt(WrapI32(PingSum(m.players))), FromInt(|m.players|))
  }

  /** The match's average skill. */
  function AverageSkill(m: Match): (r: F64)
    ensures |m.players| == 0 ==> r.NaN?
    ensures |m.players| > 0 ==> r.Finite? && r.value == SkillSum(m.players) / |m.players| as real
  {
    Div(Finite(SkillSum(m.players)), FromInt(|m.players|))
  }

  /** How much more skilled the player is than the match, in half-percent: (skill / average - 1) * 50. */
  function PercentSkill(m: Match, player: QueuedPlayer): F64
  {
    Mul(Sub(Div(Finite(Skill(player.skillrating)), AverageSkill(m)), Finite(1.0)), Finite(50.0))
  }

  /** The player may be considered at all: not a room creator, a match with room, the same region. */
  predicate Eligible(m: Match, player: QueuedPlayer, codes: JoinModeCodes)
  {
    player.join_mode != codes.Code(CreateRoom) && |m.players| < MAX_PLAYERS && m.region == player.region
  }

  /** The player's ping is within 25 ms above the match's average. */
  predicate NearAveragePing(m: Match, player: QueuedPlayer)
  {
    Gt(Add(AveragePing(m), Finite(25.0)), FromInt(player.ping))
  }

  /** The player's skill advantage outweighs their ping: ping + percent_skill > 150. */
  predicate SkillCompensates(m: Match, player: QueuedPlayer)
  {
    Gt(Add(FromInt(player.ping), PercentSkill(m, player)), Finite(150.0))
  }

  /**
   `more_than_minutes`: more than `minutes` whole minutes have passed since
   `joinedAt`, the elapsed seconds taken as a wrapping `i64` difference and divided
   by 60 rounding toward zero; false when the clock cannot be read.
   */
  function MoreThanMinutes(minutes: I64, joinedAt: I64, now: Option<I64>): bool
  {
    match now
    case None => false
    case Some(t) => TruncDiv(WrapI64(t - joinedAt), 60) > minutes
  }

  /** For a non-negative number of minutes and no overflow: more than m minutes means at least 60 (m + 1) seconds. */
  lemma MoreThanMinutesIff(minutes: I64, joinedAt: I64, t: I64)
    requires minutes >= 0 && I64_MIN <= t - joinedAt <= I64_MAX
    ensures MoreThanMinutes(minutes, joinedAt, Some(t)) <==> t - joinedAt >= 60 * (minutes + 1)
  {
    var d := t - joinedAt;
    var q := TruncDiv(d, 60);
    assert q > minutes ==> q * 60 >= (minutes + 1) * 60;
    assert q <= minutes ==> q * 60 <= minutes * 60;
  }

  /** Waiting longer never undoes having waited long enough. */
  lemma MoreThanMinutesMonotone(minutes: I64, joinedAt: I64, t1: I64, t2: I64)
    requires minutes >= 0 && t1 <= t2
    requires I64_MIN <= t1 - joinedAt && t2 - joinedAt <= I64_MAX
    ensures MoreThanMinutes(minutes, joinedAt, Some(t1)) ==> MoreThanMinutes(minutes, joinedAt, Some(t2))
  {
    MoreThanMinutesIff(minutes, joinedAt, t1);
    MoreThanMinutesIff(minutes, joinedAt, t2);
  }

  /**
   `Match::is_player_fit`: whether the player may join the match, and the ping
   deviation that decided it. An ineligible player is (false, Worst).
   */
  function IsPlayerFit(m: Match, player: QueuedPlayer, codes: JoinModeCodes, now: Option<I64>): (r: (bool, PingDeviation))
    ensures !Eligible(m, player, codes) ==> r == (false, Worst)
    ensures r.0 ==> Eligible(m, player, codes)
    ensures r.1 == Excellent <==> Eligible(m, player, codes) && player.ping < 50
    ensures r.1 == Good <==> Eligible(m, player, codes) && 50 <= player.ping < 100
    ensures r.1 == Disadvantage ==> Eligible(m, player, codes) && 100 <= player.ping < 150
    ensures r.1 == Poor ==> r.0 && player.ping >= 100
    ensures r.0 && 100 <= player.ping < 150 ==> (r.1 == Disadvantage <==> NearAveragePing(m, player))
    ensures r.0 && player.ping >= 100 && !(player.ping < 150 && NearAveragePing(m, player)) ==> r.1 == Poor
  {
    if !Eligible(m, player, codes) then (false, Worst)
    else if player.ping < 50 then (true, Excellent)
    else if player.ping < 100 then (true, Good)
    else if player.ping < 150 && NearAveragePing(m, player) then (true, Disadvantage)
    else if (player.ping < 150 && MoreThanMinutes(1, player.join_time, now)) || SkillCompensates(m, player) then (true, Poor)
    else if player.ping < 150 then (false, Disadvantage)
    else if player.ping >= 150 && player.ping < 300 && MoreThanMinutes(3, player.join_time, now) then (true, Poor)
    else (false, Worst)
  }

  /**
   The admission rule in one formula: an eligible player is admitted when their ping
   is below 100, or their skill compensates their ping, or below 150 when their ping
   is near the match's average or they waited over a minute, or below 300 when they
   waited over three minutes.
   */
  lemma FitAcceptance(m: Match, player: QueuedPlayer, codes: JoinModeCodes, now: Option<I64>)
    ensures IsPlayerFit(m, player, codes, now).0 <==>
      && Eligible(m, player, codes)
      && (|| player.ping < 100
          || SkillCompensates(m, player)
          || (player.ping < 150 && (NearAveragePing(m, player) || MoreThanMinutes(1, player.join_time, now)))
          || (150 <= player.ping < 300 && MoreThanMinutes(3, player.join_time, now)))
  {
  }

  /** A player with a ping of 100 to 150 ms is refused exactly as (false, Disadvantage), and above as (false, Worst). */
  lemma FitRefusal(m: Match, player: QueuedPlayer, codes: JoinModeCodes, now: Option<I64>)
    requires Eligible(m, player, codes) && !IsPlayerFit(m, player, codes, now).0
    ensures player.ping < 150 ==> IsPlayerFit(m, player, codes, now).1 == Disadvantage
    ensures player.ping >= 150 ==> IsPlayerFit(m, player, codes, now).1 == Worst
  {
  }

  /**
   A player admitted at some time is still admitted at any later time, as long as
   the elapsed seconds do not overflow.
   */
  lemma {:induction false} FitMonotoneInWait(m: Match, player: QueuedPlayer, codes: JoinModeCodes, t1: I64, t2: I64)
    requires t1 <= t2
    requires I64_MIN <= t1 - player.join_time && t2 - player.join_time <= I64_MAX
    ensures IsPlayerFit(m, player, codes, Some(t1)).0 ==> IsPlayerFit(m, player, codes, Some(t2)).0
  {
    MoreThanMinutesMonotone(1, player.join_time, t1, t2);
    MoreThanMinutesMonotone(3, player.join_time, t1, t2);
    FitAcceptance(m, player, codes, Some(t1));
    FitAcceptance(m, player, codes, Some(t2));
  }

  /**
   In an empty match both averages are NaN, so neither the ping comparison nor the
   skill comparison admits anyone: only a low ping or the wait does.
   */
  lemma EmptyMatchFit(m: Match, player: QueuedPlayer, codes: JoinModeCodes, now: Option<I64>)
    requires m.players == []
    ensures IsPlayerFit(m, player, codes, now).0 <==>
      && Eligible(m, player, codes)
      && (|| player.ping < 100
          || (player.ping < 150 && MoreThanMinutes(1, player.join_time, now))
          || (150 <= player.ping < 300 && MoreThanMinutes(3, player.join_time, now)))
  {
    assert AverageSkill(m).NaN? && AveragePing(m).NaN?;
    assert !NearAveragePing(m, player);
    assert !SkillCompensates(m, player);
    FitAcceptance(m, player, codes, now);
  }

  /**
   In a match whose average skill is positive, the skill comparison is the real
   inequality ping + (skill / average - 1) * 50 > 150.
   */
  lemma SkillCompensatesIff(m: Match, player: QueuedPlayer)
    requires |m.players| > 0 && SkillSum(m.players) > 0.0
    ensures var avg := SkillSum(m.players) / |m.players| as real;
      SkillCompensates(m, player) <==>
      player.ping as real + (Skill(player.skillrating) / avg - 1.0) * 50.0 > 150.0
  {
    var avg := SkillSum(m.players) / |m.players| as real;
    assert avg > 0.0;
    assert AverageSkill(m) == Finite(avg);
  }

  /**
   In a match whose players' skills sum to zero, a player of positive skill is
   infinitely more skilled and always compensates, and one of zero or negative skill
   never does.
   */
  lemma ZeroAverageSkill(m: Match, player: QueuedPlayer)
    requires |m.players| > 0 && SkillSum(m.players) == 0.0
    ensures SkillCompensates(m, player) <==> Skill(player.skillrating) > 0.0
  {
    assert AverageSkill(m) == Finite(0.0);
  }

  /** A match hosted with a full party admits nobody. */
  lemma FullHostedMatchAdmitsNobody(host: QueuedPlayer, party: seq<QueuedPlayer>, id: Uuid, codes: JoinModeCodes,
                                    player: QueuedPlayer, now: Option<I64>)
    requires |party| == MAX_PLAYERS - 1 && Host(host, party, id, codes).Ok?
    ensures IsPlayerFit(Host(host, party, id, codes).value, player, codes, now) == (false, Worst)
  {
  }
}
