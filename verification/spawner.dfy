/** The two timer callbacks that change the world (world/server.js, lines
    171-193): dropping a new coin on the board, and drawing a new speed limit.
    The `Math.random()` draws and the `uuidv4()` id are inputs. */
module Spawner {
  import opened Dicts
  import opened Board
  import opened Game

  /** `spawnCoin`: nothing happens once `MAX_COINS` coins are out; otherwise a
      coin with id `uuid` is placed at the random point (`rx`, `ry`) scaled to
      the board.  An id that is already in use is overwritten in place, as
      assignment to an existing key does. */
  function SpawnCoin(w: World, uuid: CoinId, rx: real, ry: real): (r: World)
    requires 0.0 <= rx < 1.0 && 0.0 <= ry < 1.0
    ensures r.players == w.players && r.speedLimit == w.speedLimit
    ensures |w.coins.keys| >= MAX_COINS ==> r == w
    ensures |w.coins.keys| < MAX_COINS ==>
      && uuid in r.coins.entries
      && (var c := r.coins.entries[uuid];
          c.id == uuid && 0.0 <= c.x < GAME_WIDTH && 0.0 <= c.y < GAME_HEIGHT)
      && (forall id :: id != uuid ==>
            (id in r.coins.entries <==> id in w.coins.entries)
            && (id in r.coins.entries ==> r.coins.entries[id] == w.coins.entries[id]))
    ensures |w.coins.keys| < MAX_COINS && uuid !in w.coins.entries ==>
      r.coins.keys == w.coins.keys + [uuid]
    ensures |w.coins.keys| < MAX_COINS && uuid in w.coins.entries ==>
      r.coins.keys == w.coins.keys
  {
    if |w.coins.keys| >= MAX_COINS then w
    else w.(coins := Put(w.coins, uuid, Coin(uuid, RandomX(rx), RandomY(ry))))
  }

  /** `Math.floor(Math.random() * 10) + 5`, given the draw `r` in `[0, 1)`. */
  function DrawSpeedLimit(r: real): (limit: int)
    requires 0.0 <= r < 1.0
    ensures MIN_SPEED_LIMIT <= limit <= MAX_SPEED_LIMIT
  {
    (r * 10.0).Floor + 5
  }

  /** `updateSpeedLimit`: only the speed limit changes, and it stays in `[5, 14]`. */
  function UpdateSpeedLimit(w: World, r: real): (w': World)
    requires 0.0 <= r < 1.0
    ensures w'.players == w.players && w'.coins == w.coins
    ensures MIN_SPEED_LIMIT <= w'.speedLimit <= MAX_SPEED_LIMIT
  {
    w.(speedLimit := DrawSpeedLimit(r))
  }

  /** Every limit in `[5, 14]` is drawn by some `r` in `[0, 1)`: the range is
      exactly `[5, 14]`, not a smaller one. */
  lemma EveryLimitDrawn(limit: int)
    requires MIN_SPEED_LIMIT <= limit <= MAX_SPEED_LIMIT
    ensures exists r :: 0.0 <= r < 1.0 && DrawSpeedLimit(r) == limit
  {
    var r := (limit - 5) as real / 10.0;
    assert r * 10.0 == (limit - 5) as real;
    assert DrawSpeedLimit(r) == limit;
  }

  /** `spawnCoin` keeps every reachable-state invariant, in particular the
      coin cap, and leaves every score as it was. */
  lemma SpawnPreservesInv(w: World, uuid: CoinId, rx: real, ry: real)
    requires 0.0 <= rx < 1.0 && 0.0 <= ry < 1.0
    requires Inv(w)
    ensures Inv(SpawnCoin(w, uuid, rx, ry))
    ensures ScoresKept(w, SpawnCoin(w, uuid, rx, ry))
    ensures TotalScore(SpawnCoin(w, uuid, rx, ry)) == TotalScore(w)
  {
  }

  /** A spawn adds at most one coin to the board: exactly one when there is
      room and the id is new, and none at the cap or for an id in use. */
  lemma SpawnAddsAtMostOne(w: World, uuid: CoinId, rx: real, ry: real)
    requires 0.0 <= rx < 1.0 && 0.0 <= ry < 1.0
    ensures |SpawnCoin(w, uuid, rx, ry).coins.keys| <= |w.coins.keys| + 1
    ensures |w.coins.keys| < MAX_COINS && uuid !in w.coins.entries ==>
      |SpawnCoin(w, uuid, rx, ry).coins.keys| == |w.coins.keys| + 1
    ensures |w.coins.keys| >= MAX_COINS || uuid in w.coins.entries ==>
      |SpawnCoin(w, uuid, rx, ry).coins.keys| == |w.coins.keys|
  {
  }

  /** `updateSpeedLimit` keeps every reachable-state invariant and every score. */
  lemma UpdateSpeedLimitPreservesInv(w: World, r: real)
    requires 0.0 <= r < 1.0
    requires Inv(w)
    ensures Inv(UpdateSpeedLimit(w, r))
    ensures ScoresKept(w, UpdateSpeedLimit(w, r))
    ensures TotalScore(UpdateSpeedLimit(w, r)) == TotalScore(w)
  {
  }
}
