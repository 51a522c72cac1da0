/**
 The matchmaker's queue records and the Redis keys built from them
 (crates/matchmaking/src/rpc/mod.rs). A key is a fixed prefix, a ':' and the
 `Display` of the fields it is built from; the lemmas state which records share
 a key and that keys of different kinds never collide.
 */
module Rpc {
  import opened Integers
  import opened Text
  import opened Mhth

  const CLOSED_MATCHES: string := "matches:closed"
  const PLAYER_QUEUE: string := "queue_player"
  const CREATE_MATCH_QUEUE: string := "queue_create_match"

  /** A match being formed: its id, the players in it, its region and the host's id. */
  datatype Match = Match(id: Uuid, players: seq<QueuedPlayer>, region: string, host_id: Uuid)

  /** A player waiting in a queue. `join_time` is in seconds since the game's start date. */
  datatype QueuedPlayer = QueuedPlayer(
    player_id: Uuid,
    skillrating: MhthRating,
    region: string,
    ping: I32,
    difficulty: I32,
    join_mode: I32,
    party_mode: I32,
    party_ids: seq<string>,
    join_time: I64)

  /** `player_queue_key`: the queue of the player's party mode in the player's region. */
  function PlayerQueueKey(data: QueuedPlayer): (key: string)
    ensures |key| > 13 && key[..13] == PLAYER_QUEUE + ":"
    ensures |key| > |data.region| && key[|key| - |data.region| - 1] == ':'
    ensures key[|key| - |data.region|..] == data.region
  {
    PLAYER_QUEUE + ":" + (Decimal(data.party_mode) + ":" + data.region)
  }

  /** `create_match_queue_key`: the queue of hosts waiting for players in a region. */
  function CreateMatchQueueKey(region: string): (key: string)
    ensures |key| >= 19 && key[..19] == CREATE_MATCH_QUEUE + ":" && key[19..] == region
  {
    CREATE_MATCH_QUEUE + ":" + region
  }

  /** `match_data_key`: where a match is stored, by its id. */
  function MatchDataKey(newMatch: Match): (key: string)
    ensures |key| == 42 && key[..6] == "match:" && key[6..] == Hyphenated(newMatch.id)
  {
    "match:" + Hyphenated(newMatch.id)
  }

  predicate NoColon(s: string)
  {
    forall i :: 0 <= i < |s| ==> s[i] != ':'
  }

  /** A text without ':' followed by ':' splits a string in one way only. */
  lemma SplitAtColon(d1: string, r1: string, d2: string, r2: string)
    requires NoColon(d1) && NoColon(d2)
    requires d1 + ":" + r1 == d2 + ":" + r2
    ensures d1 == d2 && r1 == r2
  {
    var s := d1 + ":" + r1;
    assert forall k :: 0 <= k < |d1| ==> s[k] != ':';
    assert forall k :: 0 <= k < |d2| ==> s[k] != ':';
    assert s[|d1|] == ':' && s[|d2|] == ':';
    assert |d1| == |d2|;
    assert s[..|d1|] == d1 && s[|d1| + 1..] == r1;
    assert s[..|d2|] == d2 && s[|d2| + 1..] == r2;
  }

  /**
   Two players share a player-queue key exactly when they have the same party mode
   and the same region: every other field is ignored, and distinct party modes or
   regions never share a queue.
   */
  lemma PlayerQueueKeyFields(a: QueuedPlayer, b: QueuedPlayer)
    ensures PlayerQueueKey(a) == PlayerQueueKey(b) <==> a.party_mode == b.party_mode && a.region == b.region
  {
    var da, db := Decimal(a.party_mode), Decimal(b.party_mode);
    var ka, kb := PlayerQueueKey(a), PlayerQueueKey(b);
    DecimalInjective(a.party_mode, b.party_mode);
    if ka == kb {
      var p := PLAYER_QUEUE + ":";
      var ta, tb := da + ":" + a.region, db + ":" + b.region;
      assert ta == ka[13..] && tb == kb[13..];
      assert NoColon(da) && NoColon(db);
      SplitAtColon(da, a.region, db, b.region);
    }
  }

  /** Distinct regions have distinct create-match queues. */
  lemma CreateMatchQueueKeyInjective(r1: string, r2: string)
    ensures CreateMatchQueueKey(r1) == CreateMatchQueueKey(r2) <==> r1 == r2
  {
  }

  /** Two matches are stored under the same key exactly when they have the same id. */
  lemma MatchDataKeyFields(m1: Match, m2: Match)
    ensures MatchDataKey(m1) == MatchDataKey(m2) <==> m1.id == m2.id
  {
    HyphenatedInjective(m1.id, m2.id);
    if MatchDataKey(m1) == MatchDataKey(m2) {
      assert Hyphenated(m1.id) == MatchDataKey(m1)[6..];
    }
  }

  /**
   Keys of different kinds never collide: a player queue is not a create-match
   queue, and neither a queue nor the closed-matches set is a match's data.
   */
  lemma KeysDistinct(p: QueuedPlayer, region: string, m: Match)
    ensures PlayerQueueKey(p) != CreateMatchQueueKey(region)
    ensures PlayerQueueKey(p) != MatchDataKey(m)
    ensures CreateMatchQueueKey(region) != MatchDataKey(m)
    ensures CLOSED_MATCHES != MatchDataKey(m)
  {
    var kp, kc, km := PlayerQueueKey(p), CreateMatchQueueKey(region), MatchDataKey(m);
    assert kp[..13][6] == 'p' && kc[..19][6] == 'c';
    assert kp[..13][0] == 'q' && km[..6][0] == 'm';
    assert kc[..19][0] == 'q';
    assert CLOSED_MATCHES[5] == 'e' && km[..6][5] == ':';
  }
}
