/**
 Turning a player's join request into a queue entry, and stamping the entry with
 the time it joined (crates/matchmaking/src/rpc/player_impl.rs).
 */
module PlayerImpl {
  import opened Integers
  import opened Text
  import opened Mhth
  import opened Rpc

  /** The join request of the protocol. */
  datatype Player = Player(
    player_id: string,
    loadout_config: string,
    region: string,
    ping: I32,
    difficulty: I32,
    join_mode: I32,
    party_mode: I32,
    party_member_id: seq<string>)

  /** The protocol's default request: empty texts, zeros and no party. */
  function DefaultPlayer(): (p: Player)
    ensures p.ping == 0 && p.party_member_id == [] && p.region == ""
  {
    Player("", "", "", 0, 0, 0, 0, [])
  }

  /** `joined_at`: the same entry with its join time set to `joinTime`. */
  function JoinedAt(p: QueuedPlayer, joinTime: I64): (q: QueuedPlayer)
    ensures q.join_time == joinTime
    ensures q.(join_time := p.join_time) == p
  {
    p.(join_time := joinTime)
  }

  /** Stamping twice is stamping with the later time. */
  lemma JoinedAtLastWins(p: QueuedPlayer, a: I64, b: I64)
    ensures JoinedAt(JoinedAt(p, a), b) == JoinedAt(p, b)
  {
  }

  /** Stamping with the time already there changes nothing. */
  lemma JoinedAtOwnTime(p: QueuedPlayer)
    ensures JoinedAt(p, p.join_time) == p
  {
  }

  /**
   `From<(Uuid, Player, MhthRating)>`: the entry takes its id and rating from the
   tuple, the request's ping, difficulty, join mode, region and party mode, the
   request's party members as its party, and join time 0.
   */
  function FromPlayer(playerId: Uuid, player: Player, skillrating: MhthRating): (q: QueuedPlayer)
    ensures q.player_id == playerId && q.skillrating == skillrating
    ensures q.ping == player.ping && q.difficulty == player.difficulty && q.join_mode == player.join_mode
    ensures q.region == player.region && q.party_mode == player.party_mode
    ensures q.party_ids == player.party_member_id
    ensures q.join_time == 0
  {
    QueuedPlayer(playerId, skillrating, player.region, player.ping, player.difficulty,
                 player.join_mode, player.party_mode, player.party_member_id, 0)
  }

  /**
   Two requests give the same entry exactly when they agree on the copied fields:
   the request's own player id text and its loadout are not kept.
   */
  lemma FromPlayerKeeps(id: Uuid, a: Player, b: Player, rating: MhthRating)
    ensures FromPlayer(id, a, rating) == FromPlayer(id, b, rating) <==>
      a.(player_id := b.player_id, loadout_config := b.loadout_config) == b
  {
  }

  /** A converted player queues by the request's party mode and region. */
  lemma FromPlayerQueue(id1: Uuid, a: Player, r1: MhthRating, id2: Uuid, b: Player, r2: MhthRating)
    ensures PlayerQueueKey(FromPlayer(id1, a, r1)) == PlayerQueueKey(FromPlayer(id2, b, r2)) <==>
      a.party_mode == b.party_mode && a.region == b.region
  {
    PlayerQueueKeyFields(FromPlayer(id1, a, r1), FromPlayer(id2, b, r2));
  }

  /** Converting the default request with a new rating: the given id, rating 25, ping 0. */
  lemma FromDefaultPlayer(id: Uuid)
    ensures var q := FromPlayer(id, DefaultPlayer(), NewRating());
      q.player_id == id && q.skillrating.rating == 25.0 && q.ping == 0
  {
  }
}
