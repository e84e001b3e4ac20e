/** The authoritative game state held by the server (world/server.js, lines
    22-29 and 89-98): every player ever created, keyed by its reconnection
    secret, the coins on the board, keyed by id, and the shared speed limit. */
module Game {
  import opened Dicts
  import opened Board

  /** The reconnection token a client names itself by. */
  type Secret = Key

  type CoinId = Key

  datatype Player = Player(
    name: string,
    color: string,
    secret: Secret,
    x: real,
    y: real,
    score: nat,
    connected: bool,
    overSpeed: bool)

  datatype Coin = Coin(id: CoinId, x: real, y: real)

  datatype World = World(players: Dict<Player>, coins: Dict<Coin>, speedLimit: int)

  const INITIAL_SPEED_LIMIT: int := 10
  /** `Math.floor(Math.random() * 10) + 5` ranges over these bounds. */
  const MIN_SPEED_LIMIT: int := 5
  const MAX_SPEED_LIMIT: int := 14

  /** The state the server starts in. */
  function Init(): (w: World)
    ensures Inv(w)
    ensures |w.players.keys| == 0 && |w.coins.keys| == 0
    ensures w.speedLimit == INITIAL_SPEED_LIMIT
  {
    World(Empty(), Empty(), INITIAL_SPEED_LIMIT)
  }

  /** A stored player record is filed under its own, non-empty secret and stands on the board. */
  predicate PlayerOk(k: Secret, p: Player) {
    p.secret == k && k != "" && OnBoard(p.x, p.y)
  }

  /** A stored coin is filed under its own id and lies on the board. */
  predicate CoinOk(k: CoinId, c: Coin) {
    c.id == k && OnBoard(c.x, c.y)
  }

  /** What holds of every state the server can reach. */
  ghost predicate Inv(w: World) {
    && (forall k :: k in w.players.entries ==> PlayerOk(k, w.players.entries[k]))
    && (forall k :: k in w.coins.entries ==> CoinOk(k, w.coins.entries[k]))
    && |w.coins.keys| <= MAX_COINS
    && MIN_SPEED_LIMIT <= w.speedLimit <= MAX_SPEED_LIMIT
  }

  /** No player record disappears and no score goes down from `w` to `w'`. */
  ghost predicate ScoresKept(w: World, w': World) {
    forall k :: k in w.players.entries ==>
      k in w'.players.entries && w.players.entries[k].score <= w'.players.entries[k].score
  }

  lemma ScoresKeptTransitive(w0: World, w1: World, w2: World)
    requires ScoresKept(w0, w1) && ScoresKept(w1, w2)
    ensures ScoresKept(w0, w2)
  {
  }

  /** The scores of the players filed under `ks`, added up. */
  function SumScores(ks: seq<Secret>, m: map<Secret, Player>): nat
    requires forall k :: k in ks ==> k in m
  {
    if ks == [] then 0 else SumScores(ks[..|ks| - 1], m) + m[ks[|ks| - 1]].score
  }

  /** Every point awarded so far, over all player records. */
  function TotalScore(w: World): nat {
    SumScores(w.players.keys, w.players.entries)
  }

  /** Changing the record of a key that is not listed leaves the sum alone. */
  lemma {:induction false} SumScoresOther(ks: seq<Secret>, m: map<Secret, Player>, k: Secret, p: Player)
    requires forall j :: j in ks ==> j in m
    requires k !in ks
    ensures SumScores(ks, m[k := p]) == SumScores(ks, m)
  {
    if ks != [] {
      SumScoresOther(ks[..|ks| - 1], m, k, p);
    }
  }

  /** Changing the record of a key listed once moves the sum by the change in its score. */
  lemma {:induction false} SumScoresUpdate(ks: seq<Secret>, m: map<Secret, Player>, k: Secret, p: Player)
    requires forall j :: j in ks ==> j in m
    requires Distinct(ks) && k in ks
    ensures SumScores(ks, m[k := p]) == SumScores(ks, m) - m[k].score + p.score
  {
    var init := ks[..|ks| - 1];
    assert forall i :: 0 <= i < |init| ==> init[i] == ks[i];
    if ks[|ks| - 1] == k {
      assert k !in init;
      SumScoresOther(init, m, k, p);
    } else {
      assert k in init by {
        var i :| 0 <= i < |ks| && ks[i] == k;
        assert i < |ks| - 1;
        assert init[i] == k;
      }
      SumScoresUpdate(init, m, k, p);
    }
  }

  /** Filing a new record under a new key adds its score to the sum. */
  lemma SumScoresAppend(ks: seq<Secret>, m: map<Secret, Player>, k: Secret, p: Player)
    requires forall j :: j in ks ==> j in m
    requires k !in ks
    ensures SumScores(ks + [k], m[k := p]) == SumScores(ks, m) + p.score
  {
    assert (ks + [k])[..|ks|] == ks;
    SumScoresOther(ks, m, k, p);
  }

  /** Rewriting one existing player record changes the total score by that player's change. */
  lemma TotalScorePut(w: World, k: Secret, p: Player, w': World)
    requires k in w.players.entries
    requires w'.players == Put(w.players, k, p)
    ensures TotalScore(w') == TotalScore(w) - w.players.entries[k].score + p.score
  {
    SumScoresUpdate(w.players.keys, w.players.entries, k, p);
  }
}
