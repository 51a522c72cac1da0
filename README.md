# MHTH rating engine and match admission, in Dafny

This project models two parts of the MHTH matchmaking service.

**The MHTH skill-rating engine** (`crates/skillratings`). It is a Weng-Lin style
Bradley-Terry Bayesian rating in which every rating carries a loadout modifier. The
model covers:

- the rating value and configuration;
- the formula helpers;
- the update of one player against an environment, and the chained update over a rating period;
- the update of a team against an environment, and of several ranked teams;
- the expected scores for each of these.

**The matchmaker's own logic** (`crates/matchmaking`):

- who may host a match, and whether a queued player fits an open match;
- the Redis keys queues and matches are stored under;
- the conversion of a join request into a queue entry;
- the health-check answer.

`f64` arithmetic is modelled on reals. `exp` and `sqrt` cannot be defined in Dafny, so
every rating function takes a `Libm` pair of functions and requires it to be lawful:

- `exp` is positive and strictly increasing;
- `sqrt` of a non-negative x is non-negative and squares to x.

Every theorem holds for every such pair. Where the rules depend on IEEE special values
(NaN and infinities in the admission rule), a small `F64` datatype models them.

The modules follow the source files:

| file | module | source |
|---|---|---|
| wrappers.dfy | Wrappers | `Option` and `Result` |
| numerics.dfy | Numerics | powers, `Libm`, sums and real-arithmetic lemmas |
| skill_ratings.dfy | SkillRatings | crates/skillratings/src/lib.rs |
| mhth.dfy | Mhth | crates/skillratings/src/mhth.rs: ratings, helpers, `mhth`, rating period |
| mhth_teams.dfy | MhthTeams | crates/skillratings/src/mhth.rs: team against environment |
| mhth_multi_team.dfy | MhthMultiTeam | crates/skillratings/src/mhth.rs: multi-team update and expectation |
| integers.dfy | Integers | Rust `i32`/`i64`, wrapping, truncating division |
| text.dfy | Text | `Display` of integers and of `Uuid` |
| float.dfy | Float | IEEE special values |
| rpc.dfy | Rpc | crates/matchmaking/src/rpc/mod.rs |
| can_match.dfy | CanMatch | crates/matchmaking/src/rpc/worker/can_match.rs |
| player_impl.dfy | PlayerImpl | crates/matchmaking/src/rpc/player_impl.rs |
| healthcheck.dfy | Healthcheck | crates/matchmaking/src/rpc/server/healthcheck.rs |

The loops of the source stay loops. These are:

- the rating period;
- the per-member updates of the team functions;
- the per-team aggregation, the pairwise comparisons and the per-team updates of the multi-team update;
- the exponentials and the in-place normalisation of the multi-team expectation.

Each such method is proved equal to a specification function, and the properties are
proved about that function.

## Model

| member | source | states |
|---|---|---|
| SkillRatings.ToChessPoints | crates/skillratings/src/lib.rs:46-58 | points lie in [0, 1]; 1 exactly for a win, 0.5 exactly for a draw, 0 exactly for a loss |
| SkillRatings.RankRoundTrip | crates/skillratings/src/lib.rs:73-101 | `new`, `rank` and both `From` conversions are mutually inverse |
| SkillRatings.CmpFollowsRank | crates/skillratings/src/lib.rs:69-71 | the derived order of outcomes is the order of their ranks: Less, Equal and Greater exactly when the ranks are <, = and >, and the comparison is antisymmetric |
| Mhth.RatingConstructors | crates/skillratings/src/mhth.rs:91-170 | the default rating is 25 / 1 / 25/3 with skill 26; `Rating::new` falls back to the defaults; the pair, triple and TrueSkill conversions agree; `loadout_modifier` changes only the modifier |
| Mhth.DefaultConfig | crates/skillratings/src/mhth.rs:190-206 | the default configuration (beta 25/6, tolerance 0.000001) has beta != 0 and a tolerance in [0, 1] |
| Mhth.CValue | crates/skillratings/src/mhth.rs:1057-1059 | c is positive and c^2 = 2 beta^2 + the summed variance |
| Mhth.PairC | crates/skillratings/src/mhth.rs:339-346 | c of two ratings is positive and c^2 = 2 beta^2 + sigma_1^2 + sigma_2^2 |
| Mhth.PValue | crates/skillratings/src/mhth.rs:1129-1137 | both probabilities lie in (0, 1) and sum to 1; equal ratings give 0.5 each; for c > 0 the first is above or below 0.5 exactly when the first rating is above or below the second |
| Mhth.PValueSwap | crates/skillratings/src/mhth.rs:1129-1137 | swapping the ratings swaps the probabilities |
| Mhth.PValueDecreasing | crates/skillratings/src/mhth.rs:1129-1137 | a stronger opponent strictly lowers the win probability |
| Mhth.SmallDelta | crates/skillratings/src/mhth.rs:1139-1141 | zero when the score equals the expectation; otherwise has the sign of score - p |
| Mhth.Gamma | crates/skillratings/src/mhth.rs:1145-1147 | gamma is non-negative |
| Mhth.Eta | crates/skillratings/src/mhth.rs:1149-1151 | eta is non-negative for a probability p |
| Mhth.NewRatingValue | crates/skillratings/src/mhth.rs:1154-1162 | the rating is unchanged when the score equals the expectation, and moves up or down exactly as the score is above or below it |
| Mhth.ShrinkFactor | crates/skillratings/src/mhth.rs:1170-1171 | the factor is at least the tolerance and at most 1 |
| Mhth.NewUncertaintyValue | crates/skillratings/src/mhth.rs:1164-1172 | the new sigma is non-negative, squares to at least sigma^2 times the tolerance, is positive for a positive tolerance, and never exceeds the old sigma |
| Mhth.Mhth | crates/skillratings/src/mhth.rs:333-388 | modifiers are kept; a win raises the player's rating and lowers the environment's; a loss does the reverse; with a tolerance in [0, 1] no uncertainty grows or becomes negative |
| Mhth.UpdateSide | crates/skillratings/src/mhth.rs:357-387 | one side's update keeps the modifier; the bare rating moves by sigma^2/c (score - p) in the direction of score - p; sigma does not grow |
| Mhth.MhthSides | crates/skillratings/src/mhth.rs:339-387 | `mhth` is the two sides updated independently with one c, the environment scoring 1 - score, against the environment's bare rating |
| Mhth.BareExpectation | crates/skillratings/src/mhth.rs:348-352 | the probability `mhth` uses is `expected_score` against the environment with its modifier dropped |
| Mhth.BareEnvironmentDiffers | crates/skillratings/src/mhth.rs:348-352 | that probability differs from `expected_score` whenever the environment's modifier is not zero, with the direction given by the modifier's sign |
| Mhth.ExpectedScore | crates/skillratings/src/mhth.rs:873-892 | probabilities in (0, 1) summing to 1, 0.5 each for equal skills, the first above or below 0.5 exactly when the player's skill is |
| Mhth.ExpectedScoreSymmetric | crates/skillratings/src/mhth.rs:873-892 | swapping the two ratings swaps the expectations |
| Mhth.ExpectedScoreRatingPeriod | crates/skillratings/src/mhth.rs:1118-1127 | one expectation per opponent, each in (0, 1), above 0.5 exactly when the player is the stronger |
| Mhth.MhthRatingPeriod | crates/skillratings/src/mhth.rs:433-472 | the loop's result is the fold of the per-game step over the results, starting from rating plus modifier; the modifier is kept; an empty period returns rating + modifier |
| Mhth.PeriodGame | crates/skillratings/src/mhth.rs:442-464 | the loop body computes one step of the fold |
| Mhth.PeriodFoldAppend | crates/skillratings/src/mhth.rs:441-465 | a period split in two is the second part applied to the result of the first |
| Mhth.PeriodStepIsMhth | crates/skillratings/src/mhth.rs:441-465 | each game of a period is `mhth` of the running rating against the opponent's skill as a bare environment |
| Mhth.PeriodUncertaintyNonIncreasing | crates/skillratings/src/mhth.rs:463-464 | over a whole period sigma never grows and never becomes negative |
| MhthTeams.TeamUncertaintySq | crates/skillratings/src/mhth.rs:570-571 | a team's summed variance is non-negative, and zero exactly when every member's uncertainty is zero |
| MhthTeams.NewRatingTeams | crates/skillratings/src/mhth.rs:1174-1181 | a zero omega leaves the rating; otherwise the rating moves in omega's direction |
| MhthTeams.TeamShrinkFactor | crates/skillratings/src/mhth.rs:1189-1191 | the factor is at least the tolerance and at most 1 for a non-negative large delta |
| MhthTeams.NewUncertaintyTeams | crates/skillratings/src/mhth.rs:1183-1193 | the new sigma is non-negative, bounded below by the tolerance, positive for a positive tolerance, and at most the old sigma |
| MhthTeams.UpdateMember | crates/skillratings/src/mhth.rs:606-626 | a member's update keeps the modifier, moves the rating with omega and does not raise sigma |
| MhthTeams.UpdateTeam | crates/skillratings/src/mhth.rs:603-626 | the updated team has one entry per member, each that member's update |
| MhthTeams.UpdateMembers | crates/skillratings/src/mhth.rs:603-648 | the push loop builds exactly the updated team |
| MhthTeams.SideStep | crates/skillratings/src/mhth.rs:586-601 | a side's omega has the sign of score - p and its large delta is non-negative |
| MhthTeams.VersusSteps | crates/skillratings/src/mhth.rs:561-601 | one comparison of the summed skills: a win gives the players a positive step and the environment a negative one, a loss the reverse, and a draw of equal sums a zero step |
| MhthTeams.TeamVsEnvironment | crates/skillratings/src/mhth.rs:551-651 | an empty side returns both sides unchanged; otherwise one updated member per member, with every modifier kept |
| MhthTeams.MhthTeamVsEnvironment | crates/skillratings/src/mhth.rs:551-651 | the imperative function computes TeamVsEnvironment |
| MhthTeams.TeamDrawOfEqualSides | crates/skillratings/src/mhth.rs:580-613 | a draw between sides of equal summed skill changes no rating |
| MhthTeams.TeamOutcomeDirection | crates/skillratings/src/mhth.rs:580-647 | a win raises every uncertain player's rating and lowers every uncertain environment member's; a loss does the reverse |
| MhthTeams.TeamUncertaintyNonIncreasing | crates/skillratings/src/mhth.rs:614-641 | with a tolerance in [0, 1] no member's sigma grows or becomes negative |
| MhthTeams.ExpectedTeamVsEnvironment | crates/skillratings/src/mhth.rs:946-971 | probabilities in (0, 1) summing to 1, ordered as the summed skills |
| MhthTeams.ExpectedTeamOfSingletons | crates/skillratings/src/mhth.rs:946-971 | for one-member sides this is `expected_score` |
| MhthMultiTeam.RankScore | crates/skillratings/src/mhth.rs:792-796 | the score is 1 exactly when the team placed better, 0.5 exactly on a shared rank, and 0 exactly when it placed worse |
| MhthMultiTeam.OutcomeOfRanks | crates/skillratings/src/mhth.rs:792-796 | the two-team outcome whose chess points are the rank score of each side |
| MhthMultiTeam.Contribution | crates/skillratings/src/mhth.rs:784-807 | a comparison's large-delta term is non-negative; its omega term is positive when the team placed better, negative when worse, and zero for a tie of equal skills |
| MhthMultiTeam.Accumulated | crates/skillratings/src/mhth.rs:776-808 | the summed large delta is non-negative |
| MhthMultiTeam.MultiTeamStep | crates/skillratings/src/mhth.rs:775-808 | a team's step carries its own summed variance and a non-negative large delta |
| MhthMultiTeam.MultiTeam | crates/skillratings/src/mhth.rs:745-836 | one team per team and one member per member; an empty team returns every team unchanged; otherwise each team is updated by its step |
| MhthMultiTeam.MhthMultiTeam | crates/skillratings/src/mhth.rs:745-836 | the imperative function computes MultiTeam |
| MhthMultiTeam.UpdateTeams | crates/skillratings/src/mhth.rs:774-833 | the outer loop updates team j by its step, for every j |
| MhthMultiTeam.UpdateOneTeam | crates/skillratings/src/mhth.rs:775-832 | one iteration of the outer loop builds the updated team |
| MhthMultiTeam.TeamAggregates | crates/skillratings/src/mhth.rs:763-772 | the aggregation loop yields each team's summed skill and summed variance |
| MhthMultiTeam.Comparisons | crates/skillratings/src/mhth.rs:776-808 | the inner loop's omega and large delta are the sums of the comparisons with every other team |
| MhthMultiTeam.Comparison | crates/skillratings/src/mhth.rs:784-804 | one comparison computes Contribution |
| MhthMultiTeam.AccumulatedSign | crates/skillratings/src/mhth.rs:806-807 | omega is positive when every comparison's term is, and negative when every one is |
| MhthMultiTeam.MultiTeamRankDirection | crates/skillratings/src/mhth.rs:775-831 | a team that placed strictly better than every other raises each uncertain member's rating; one that placed strictly worse than every other lowers it |
| MhthMultiTeam.MultiTeamUncertaintyNonIncreasing | crates/skillratings/src/mhth.rs:819-824 | with a tolerance in [0, 1] no member's sigma grows or becomes negative |
| MhthMultiTeam.TwoTeamsAgreeWithVersus | crates/skillratings/src/mhth.rs:745-836 | two ranked teams are rated exactly as `mhth_team_vs_environment` rates them with the outcome their ranks stand for |
| MhthMultiTeam.TwoTeamSteps | crates/skillratings/src/mhth.rs:775-808 | in a two-team match each team's step is its side's versus step |
| MhthMultiTeam.ExpectedMultiTeam | crates/skillratings/src/mhth.rs:1042-1076 | one share per team, each in (0, 1], summing to 1, ordered as the teams' summed skills |
| MhthMultiTeam.SoftmaxLaws | crates/skillratings/src/mhth.rs:1061-1073 | the normalised exponentials are shares in (0, 1] that sum to 1 and are ordered as the ratings |
| MhthMultiTeam.ExpectedScoreMultiTeam | crates/skillratings/src/mhth.rs:1042-1076 | the imperative function computes ExpectedMultiTeam |
| MhthMultiTeam.Exponentials | crates/skillratings/src/mhth.rs:1061-1069 | the loop fills a fresh array with exp(rating / c) per team and returns their sum |
| MhthMultiTeam.DivideInPlace | crates/skillratings/src/mhth.rs:1071-1073 | the in-place loop divides every entry by the sum |
| Text.DecimalRoundTrip | crates/matchmaking/src/rpc/mod.rs:43 | the `Display` of an integer is read back as that integer |
| Text.HyphenatedRoundTrip | crates/matchmaking/src/rpc/mod.rs:51 | the hyphenated `Display` of a Uuid is read back as that Uuid |
| Rpc.PlayerQueueKey | crates/matchmaking/src/rpc/mod.rs:42-44 | the key starts with "queue_player:" and ends with ':' and the region |
| Rpc.PlayerQueueKeyFields | crates/matchmaking/src/rpc/mod.rs:42-44 | two players share a key exactly when party mode and region agree: every other field is ignored, and distinct values never collide |
| Rpc.CreateMatchQueueKey | crates/matchmaking/src/rpc/mod.rs:46-48 | the key is "queue_create_match:" followed by the region |
| Rpc.CreateMatchQueueKeyInjective | crates/matchmaking/src/rpc/mod.rs:46-48 | distinct regions have distinct keys |
| Rpc.MatchDataKey | crates/matchmaking/src/rpc/mod.rs:50-52 | the key is "match:" followed by the 36-character hyphenated id |
| Rpc.MatchDataKeyFields | crates/matchmaking/src/rpc/mod.rs:50-52 | two matches share a key exactly when their ids agree |
| Rpc.KeysDistinct | crates/matchmaking/src/rpc/mod.rs:17-52 | a player-queue key is never a create-match key; neither is a match key; "matches:closed" is never a match key |
| PlayerImpl.JoinedAt | crates/matchmaking/src/rpc/player_impl.rs:7-10 | the join time is the given one and every other field is unchanged |
| PlayerImpl.JoinedAtLastWins | crates/matchmaking/src/rpc/player_impl.rs:7-10 | stamping twice is stamping with the later time |
| PlayerImpl.FromPlayer | crates/matchmaking/src/rpc/player_impl.rs:13-29 | the id and rating come from the tuple; ping, difficulty, join mode, region and party mode come from the request; the party is the request's party members; join time is 0 |
| PlayerImpl.FromPlayerKeeps | crates/matchmaking/src/rpc/player_impl.rs:17-27 | two requests convert alike exactly when they agree on every field except their id text and loadout |
| PlayerImpl.FromDefaultPlayer | crates/matchmaking/src/rpc/player_impl.rs:35-43 | the default request with a new rating gives the id, rating 25 and ping 0 |
| Healthcheck.StatusCode | crates/matchmaking/src/rpc/server/healthcheck.rs:21-31 | every status is sent as a number from 0 to 4 |
| Healthcheck.StatusCodeInjective | crates/matchmaking/src/rpc/server/healthcheck.rs:21-31 | distinct statuses have distinct numbers |
| Healthcheck.Response | crates/matchmaking/src/rpc/server/healthcheck.rs:33-39 | the response carries the status's number, which reads back as the status |
| Healthcheck.Healthy | crates/matchmaking/src/rpc/server/healthcheck.rs:41-53 | 0 exactly for an unknown service name; 1 exactly for a known name and a started probe; 2 exactly for a known name and a failed probe; never 3 or 4 |
| CanMatch.Host | crates/matchmaking/src/rpc/worker/can_match.rs:33-52 | JoinOnlyMode exactly for a join-only player; otherwise OversidedParty(len + 1, 4) exactly when the party with its host exceeds 4; otherwise the party followed by the host, in the host's region, with 1 to 4 players |
| CanMatch.AveragePing | crates/matchmaking/src/rpc/worker/can_match.rs:64-65 | NaN for an empty match; otherwise the wrapped i32 ping sum over the player count |
| CanMatch.AverageSkill | crates/matchmaking/src/rpc/worker/can_match.rs:66-71 | NaN for an empty match; otherwise the skill sum over the player count |
| CanMatch.MoreThanMinutesIff | crates/matchmaking/src/rpc/worker/can_match.rs:97-103 | without overflow, more than m minutes holds exactly when at least 60 (m + 1) seconds have passed |
| CanMatch.MoreThanMinutesMonotone | crates/matchmaking/src/rpc/worker/can_match.rs:97-103 | a later clock reading never turns it false |
| CanMatch.IsPlayerFit | crates/matchmaking/src/rpc/worker/can_match.rs:55-94 | an ineligible player (creates rooms, full match, other region) is (false, Worst), and only eligible players are admitted; Excellent exactly below 50 ms and Good exactly from 50 to 100 ms for an eligible player; Disadvantage only from 100 to 150 ms; Poor only for admitted players from 100 ms; an admitted player from 100 to 150 ms is Disadvantage exactly when their ping is near the match's average, and every other admitted player from 100 ms is Poor, so no admitted player is Worst |
| CanMatch.FitAcceptance | crates/matchmaking/src/rpc/worker/can_match.rs:76-93 | an eligible player is admitted exactly when the ping is below 100, or the skill compensates the ping, or the ping is below 150 and near the average or the wait exceeds a minute, or the ping is below 300 and the wait exceeds three minutes |
| CanMatch.FitRefusal | crates/matchmaking/src/rpc/worker/can_match.rs:86-93 | an eligible player refused below 150 ms is Disadvantage, and refused from 150 ms is Worst |
| CanMatch.FitMonotoneInWait | crates/matchmaking/src/rpc/worker/can_match.rs:82-90 | a player admitted at some time is admitted at every later time |
| CanMatch.EmptyMatchFit | crates/matchmaking/src/rpc/worker/can_match.rs:64-93 | in an empty match only a low ping or the wait admits a player |
| CanMatch.SkillCompensatesIff | crates/matchmaking/src/rpc/worker/can_match.rs:72-83 | for a positive average skill the skill test is ping + (skill / average - 1) * 50 > 150 |
| CanMatch.ZeroAverageSkill | crates/matchmaking/src/rpc/worker/can_match.rs:72-83 | when the match's skills sum to zero, exactly a player of positive skill passes the skill test |
| CanMatch.FullHostedMatchAdmitsNobody | crates/matchmaking/src/rpc/worker/can_match.rs:176-195 | a match hosted with a party of three admits nobody |

## Left out

- `exp` and `sqrt` are parameters (`Libm`) that satisfy only the laws above. No result depends on their exact IEEE values.
- f64 rounding, fused multiply-add and overflow to infinity are not modelled: each arithmetic result is the exact real. The numeric examples in the documentation (such as 2678 and 779) depend on these and are not reproduced.
- Mhth.CValue, Mhth.PairC, Mhth.Mhth, Mhth.MhthSides, Mhth.BareExpectation, Mhth.BareEnvironmentDiffers, Mhth.ExpectedScore, Mhth.ExpectedScoreSymmetric, Mhth.ExpectedScoreRatingPeriod: require beta != 0 (`ValidConfig`). The source computes c = sqrt(2 beta^2 + the summed variance), which is positive and finite for beta = 0 whenever some uncertainty in the comparison is non-zero; the model excludes beta = 0 even then. Only with beta = 0 and zero uncertainties does the source divide by a zero c and yield NaN.
- Mhth.MhthRatingPeriod, Mhth.PeriodGame, Mhth.PeriodFoldAppend, Mhth.PeriodStepIsMhth, Mhth.PeriodUncertaintyNonIncreasing: require beta != 0, for the same reason and with the same loss: a rating period with beta = 0 and non-zero uncertainties is not covered.
- MhthTeams.TeamVsEnvironment, MhthTeams.MhthTeamVsEnvironment, MhthTeams.VersusSteps, MhthTeams.ExpectedTeamVsEnvironment, MhthTeams.ExpectedTeamOfSingletons, MhthTeams.TeamDrawOfEqualSides, MhthTeams.TeamOutcomeDirection, MhthTeams.TeamUncertaintyNonIncreasing: require beta != 0, for the same reason and with the same loss for teams.
- MhthMultiTeam.MultiTeam, MhthMultiTeam.MhthMultiTeam, MhthMultiTeam.MultiTeamStep, MhthMultiTeam.Contribution, MhthMultiTeam.Comparison, MhthMultiTeam.Comparisons, MhthMultiTeam.UpdateTeams, MhthMultiTeam.UpdateOneTeam, MhthMultiTeam.ExpectedMultiTeam, MhthMultiTeam.ExpectedScoreMultiTeam, MhthMultiTeam.MultiTeamRankDirection, MhthMultiTeam.MultiTeamUncertaintyNonIncreasing, MhthMultiTeam.TwoTeamsAgreeWithVersus, MhthMultiTeam.TwoTeamSteps: require beta != 0, for the same reason and with the same loss for several teams.
- MhthTeams.TeamVsEnvironment, MhthMultiTeam.MultiTeam: require every non-empty team to have a non-zero summed variance. Otherwise the source divides by zero and yields NaN.
- The `RatingSystem`, `RatingPeriodSystem`, `TeamRatingSystem` and `MultiTeamRatingSystem` impls only delegate to the functions above.
- The other rating systems declared in lib.rs are not part of this model.
- `MhthRating`'s serde and bitcode derives are not modelled.
- Signed zero is not modelled: every zero is +0. A match whose skills are all -0.0 would make the skill ratio an infinity of the other sign.
- The i32 ping sum wraps as in a release build; a debug build would panic instead. The same holds for the i64 difference in `more_than_minutes`.
- CanMatch.MoreThanMinutesIff, CanMatch.FitMonotoneInWait: state their results only where the elapsed seconds fit in an i64.
- `Uuid::new_v4()` is the parameter `id` of Host.
- The clock read in `more_than_minutes` is the parameter `now`, where `None` is a failed reading.
- The numbers the protocol assigns to the join modes are the parameter `JoinModeCodes`, because the generated protocol code is not part of this model.
- `healthy` spawns a process to probe itself. The outcome of that spawn is the parameter `spawned`.
- The protocol's `SERVICE_NAME` is taken as "matchmaking.MatchmakingService": the full name of service `MatchmakingService` in package `matchmaking`.
- Redis, tonic, the worker loops, authentication and the Nakama client are I/O and are not part of this model.
- `expected_score` adds the environment's modifier, while `mhth` compares the player against the environment's bare rating. The model keeps this difference, and lemmas Mhth.BareExpectation and Mhth.BareEnvironmentDiffers state it.
- In `mhth_rating_period` the running rating starts at rating plus modifier, and the result keeps the modifier folded in. The model keeps this.
- `is_player_fit` admits a player with a ping of 300 ms or more as Poor when their skill compensates their ping. The model keeps this.
