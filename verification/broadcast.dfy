/** What the server tells its clients about the world (world/server.js,
    lines 41-64 and 144-148): the public view of every connected player, the
    coins, the top-ten leaderboard and the speed limit.  Serialisation and
    delivery are not modelled; these are the values that get sent. */
module Broadcast {
  import opened Dicts
  import opened Board
  import opened Game

  /** The fields of a player that are broadcast; the secret is not among them. */
  datatype PublicPlayer = PublicPlayer(name: string, color: string, x: real, y: real, score: nat, overSpeed: bool)

  /** One leaderboard line. */
  datatype Entry = Entry(name: string, score: nat)

  /** The `gameState` message. */
  datatype GameState = GameState(players: seq<PublicPlayer>, coins: seq<Coin>, leaderboard: seq<Entry>, speedLimit: int)

  const LEADERBOARD_SIZE: nat := 10

  function View(p: Player): PublicPlayer {
    PublicPlayer(p.name, p.color, p.x, p.y, p.score, p.overSpeed)
  }

  function EntryOf(p: Player): Entry {
    Entry(p.name, p.score)
  }

  /** `.filter((p) => p.connected)`, order kept. */
  function Connected(ps: seq<Player>): (r: seq<Player>)
    ensures forall p :: p in r <==> p in ps && p.connected
    ensures |r| <= |ps|
  {
    if ps == [] then []
    else
      assert ps == [ps[0]] + ps[1..];
      (if ps[0].connected then [ps[0]] else []) + Connected(ps[1..])
  }

  /** `.filter` keeps every connected player as often as it occurs and drops
      every other one. */
  lemma {:induction false} ConnectedCounts(ps: seq<Player>)
    ensures forall p :: multiset(Connected(ps))[p] == if p.connected then multiset(ps)[p] else 0
  {
    if ps != [] {
      assert ps == [ps[0]] + ps[1..];
      ConnectedCounts(ps[1..]);
    }
  }

  /** When every player is connected the filter keeps the list as it is. */
  lemma {:induction false} AllConnected(ps: seq<Player>)
    requires forall i :: 0 <= i < |ps| ==> ps[i].connected
    ensures Connected(ps) == ps
  {
    if ps != [] {
      AllConnected(ps[1..]);
      assert ps == [ps[0]] + ps[1..];
    }
  }

  /** Filtering a list with a given first player. */
  lemma ConnectedCons(p: Player, s: seq<Player>)
    ensures Connected([p] + s) == (if p.connected then [p] else []) + Connected(s)
  {
    assert ([p] + s)[0] == p;
    assert ([p] + s)[1..] == s;
  }

  /** Filtering a concatenation filters each part and keeps them in order, so
      connected players are listed in the order of the input. */
  lemma {:induction false} ConnectedAppend(a: seq<Player>, b: seq<Player>)
    ensures Connected(a + b) == Connected(a) + Connected(b)
  {
    if a == [] {
      assert a + b == b;
    } else {
      assert a == [a[0]] + a[1..];
      assert a + b == [a[0]] + (a[1..] + b);
      ConnectedCons(a[0], a[1..] + b);
      ConnectedCons(a[0], a[1..]);
      ConnectedAppend(a[1..], b);
    }
  }

  /** The secrets of the connected players among `keys`, in the order given. */
  function ConnectedKeys(keys: seq<Key>, entries: map<Key, Player>): (r: seq<Key>)
    requires forall k :: k in keys ==> k in entries
    ensures forall k :: k in r <==> k in keys && entries[k].connected
    ensures Distinct(keys) ==> Distinct(r)
  {
    if keys == [] then []
    else
      assert Distinct(keys) ==> Distinct(keys[1..]) && keys[0] !in keys[1..] by {
        if Distinct(keys) {
          forall j | 0 <= j < |keys[1..]| ensures keys[1..][j] != keys[0] {
            assert keys[1..][j] == keys[j + 1];
          }
        }
      }
      (if entries[keys[0]].connected then [keys[0]] else []) + ConnectedKeys(keys[1..], entries)
  }

  /** The records filed under `keys`, in the order given. */
  function Lookup(keys: seq<Key>, entries: map<Key, Player>): (r: seq<Player>)
    requires forall k :: k in keys ==> k in entries
    ensures |r| == |keys|
    ensures forall i :: 0 <= i < |keys| ==> r[i] == entries[keys[i]]
  {
    if keys == [] then [] else [entries[keys[0]]] + Lookup(keys[1..], entries)
  }

  /** Filtering the records is looking up the filtered keys. */
  lemma {:induction false} ConnectedLookup(keys: seq<Key>, entries: map<Key, Player>)
    requires forall k :: k in keys ==> k in entries
    ensures Connected(Lookup(keys, entries)) == Lookup(ConnectedKeys(keys, entries), entries)
  {
    if keys != [] {
      var p := entries[keys[0]];
      var rest := keys[1..];
      ConnectedLookup(rest, entries);
      assert Lookup(keys, entries) == [p] + Lookup(rest, entries);
      ConnectedCons(p, Lookup(rest, entries));
      if p.connected {
        var ck := [keys[0]] + ConnectedKeys(rest, entries);
        assert ck[0] == keys[0] && ck[1..] == ConnectedKeys(rest, entries);
      }
    }
  }

  /** The connected records in key order are those filed under the connected keys. */
  lemma ConnectedRecords(w: World)
    ensures Connected(Values(w.players)) == Lookup(ConnectedKeys(w.players.keys, w.players.entries), w.players.entries)
  {
    assert Values(w.players) == Lookup(w.players.keys, w.players.entries);
    ConnectedLookup(w.players.keys, w.players.entries);
  }

  /** Each connected secret occurs once among the connected keys. */
  lemma ConnectedKeysCount(w: World)
    ensures |ConnectedKeys(w.players.keys, w.players.entries)|
         == |set k | k in w.players.entries && w.players.entries[k].connected|
  {
    var ck := ConnectedKeys(w.players.keys, w.players.entries);
    DistinctCard(ck);
    assert (set k | k in ck) == (set k | k in w.players.entries && w.players.entries[k].connected);
  }

  /** When every player is connected, the filter keeps every record. */
  lemma EveryoneConnected(w: World)
    ensures (forall k :: k in w.players.entries ==> w.players.entries[k].connected) ==>
      Connected(Values(w.players)) == Values(w.players)
  {
    var vs := Values(w.players);
    if forall k :: k in w.players.entries ==> w.players.entries[k].connected {
      forall i | 0 <= i < |vs| ensures vs[i].connected {
        assert w.players.keys[i] in w.players.entries;
      }
      AllConnected(vs);
    }
  }

  /** The `players` field of the `gameState` message: the public fields of
      each connected player once, in the order they first joined. */
  function PublicPlayers(w: World): (r: seq<PublicPlayer>)
    ensures var ck := ConnectedKeys(w.players.keys, w.players.entries);
            && |r| == |ck|
            && forall i :: 0 <= i < |r| ==> r[i] == View(w.players.entries[ck[i]])
    ensures |r| <= |w.players.keys|
    ensures (forall k :: k in w.players.entries ==> w.players.entries[k].connected) ==> |r| == |w.players.keys|
  {
    var active := Connected(Values(w.players));
    var ck := ConnectedKeys(w.players.keys, w.players.entries);
    ConnectedRecords(w);
    EveryoneConnected(w);
    var r := seq(|active|, i requires 0 <= i < |active| => View(active[i]));
    assert forall i :: 0 <= i < |r| ==> r[i] == View(w.players.entries[ck[i]]) by {
      assert active == Lookup(ck, w.players.entries);
    }
    r
  }

  /** The broadcast has one entry per connected player on record. */
  lemma PublicPlayersCount(w: World)
    ensures |PublicPlayers(w)| == |set k | k in w.players.entries && w.players.entries[k].connected|
  {
    ConnectedKeysCount(w);
  }

  /** Player `p` is on record in `w` under some secret. */
  ghost predicate OnRecord(w: World, p: Player) {
    exists k :: k in w.players.entries && w.players.entries[k] == p
  }

  /** Every value of `Object.values(players)` is the record of some secret, and conversely. */
  lemma ValuesOnRecord(w: World, p: Player)
    ensures p in Values(w.players) <==> OnRecord(w, p)
  {
    var vs := Values(w.players);
    if p in vs {
      var j :| 0 <= j < |vs| && vs[j] == p;
      assert w.players.keys[j] in w.players.entries;
    }
    if OnRecord(w, p) {
      var k :| k in w.players.entries && w.players.entries[k] == p;
      var j :| 0 <= j < |w.players.keys| && w.players.keys[j] == k;
      assert vs[j] == p;
    }
  }

  /** The broadcast lists exactly the connected players: each connected
      player's public fields appear, and nothing else does. */
  lemma PublicPlayersExact(w: World)
    ensures forall k :: k in w.players.entries && w.players.entries[k].connected ==>
      View(w.players.entries[k]) in PublicPlayers(w)
    ensures forall v :: v in PublicPlayers(w) ==>
      exists k :: k in w.players.entries && w.players.entries[k].connected && v == View(w.players.entries[k])
  {
    var active := Connected(Values(w.players));
    var r := PublicPlayers(w);
    forall k | k in w.players.entries && w.players.entries[k].connected
      ensures View(w.players.entries[k]) in r
    {
      var p := w.players.entries[k];
      ValuesOnRecord(w, p);
      var i :| 0 <= i < |active| && active[i] == p;
      assert r[i] == View(p);
    }
    forall v | v in r
      ensures exists k :: k in w.players.entries && w.players.entries[k].connected && v == View(w.players.entries[k])
    {
      var i :| 0 <= i < |r| && r[i] == v;
      var p := active[i];
      ValuesOnRecord(w, p);
      var k :| k in w.players.entries && w.players.entries[k] == p;
      assert v == View(w.players.entries[k]);
    }
  }

  /** Ordered by non-increasing score. */
  predicate ByScore(ps: seq<Player>) {
    forall i, j :: 0 <= i < j < |ps| ==> ps[i].score >= ps[j].score
  }

  /** Put `p` in front of the first player that does not outscore it. */
  function Insert(p: Player, ps: seq<Player>): (r: seq<Player>)
    ensures multiset(r) == multiset(ps) + multiset{p}
    ensures r[0] == p || r[0] == ps[0]
  {
    if ps == [] || ps[0].score <= p.score then [p] + ps
    else
      assert ps == [ps[0]] + ps[1..];
      [ps[0]] + Insert(p, ps[1..])
  }

  /** Inserting into a ranking gives a ranking. */
  lemma {:induction false} InsertKeepsOrder(p: Player, ps: seq<Player>)
    requires ByScore(ps)
    ensures ByScore(Insert(p, ps))
  {
    if ps != [] && ps[0].score > p.score {
      var rest := Insert(p, ps[1..]);
      InsertKeepsOrder(p, ps[1..]);
      assert rest[0].score <= ps[0].score;
      var r := [ps[0]] + rest;
      forall i, j | 0 <= i < j < |r| ensures r[i].score >= r[j].score {
        if i == 0 && j > 1 {
          assert r[j] == rest[j - 1];
        }
      }
    }
  }

  /** `.sort((a, b) => b.score - a.score)`: the sort is stable, so players
      with equal scores keep their relative order. */
  function Ranked(ps: seq<Player>): (r: seq<Player>)
    ensures multiset(r) == multiset(ps)
    ensures ByScore(r)
  {
    if ps == [] then []
    else
      assert ps == [ps[0]] + ps[1..];
      InsertKeepsOrder(ps[0], Ranked(ps[1..]));
      Insert(ps[0], Ranked(ps[1..]))
  }

  /** The players of `ps` with score `n`, order kept. */
  function WithScore(ps: seq<Player>, n: nat): seq<Player> {
    if ps == [] then []
    else (if ps[0].score == n then [ps[0]] else []) + WithScore(ps[1..], n)
  }

  lemma WithScoreCons(p: Player, ps: seq<Player>, n: nat)
    ensures WithScore([p] + ps, n) == (if p.score == n then [p] else []) + WithScore(ps, n)
  {
    assert ([p] + ps)[0] == p;
    assert ([p] + ps)[1..] == ps;
  }

  /** Inserting `p` puts it ahead of every player with the same score. */
  lemma {:induction false} InsertWithScore(p: Player, ps: seq<Player>, n: nat)
    ensures WithScore(Insert(p, ps), n) == (if p.score == n then [p] else []) + WithScore(ps, n)
  {
    if ps == [] || ps[0].score <= p.score {
      WithScoreCons(p, ps, n);
    } else {
      InsertWithScore(p, ps[1..], n);
      WithScoreCons(ps[0], Insert(p, ps[1..]), n);
      WithScoreCons(ps[0], ps[1..], n);
      assert ps == [ps[0]] + ps[1..];
    }
  }

  /** Stability: for every score, the players holding it appear in the ranking
      in the same order as in the input. */
  lemma {:induction false} RankedIsStable(ps: seq<Player>, n: nat)
    ensures WithScore(Ranked(ps), n) == WithScore(ps, n)
  {
    if ps != [] {
      RankedIsStable(ps[1..], n);
      InsertWithScore(ps[0], Ranked(ps[1..]), n);
    }
  }

  /** `getLeaderboard`: every player on record, connected or not, ranked by
      score; the first ten, as name and score. */
  function Leaderboard(w: World): (board: seq<Entry>)
    ensures |board| == if |w.players.keys| < LEADERBOARD_SIZE then |w.players.keys| else LEADERBOARD_SIZE
    ensures forall i, j :: 0 <= i < j < |board| ==> board[i].score >= board[j].score
  {
    var ranked := Ranked(Values(w.players));
    assert |multiset(ranked)| == |multiset(Values(w.players))|;
    var top := if |ranked| < LEADERBOARD_SIZE then |ranked| else LEADERBOARD_SIZE;
    seq(top, i requires 0 <= i < top => EntryOf(ranked[i]))
  }

  /** Line `i` of the board is the player in place `i` of the ranking. */
  lemma BoardLine(w: World, i: nat)
    requires i < |Leaderboard(w)|
    ensures i < |Ranked(Values(w.players))|
    ensures Leaderboard(w)[i] == EntryOf(Ranked(Values(w.players))[i])
  {
  }

  /** Every place in the ranking is held by a player on record. */
  lemma RankedOnRecord(w: World, i: nat)
    requires i < |Ranked(Values(w.players))|
    ensures OnRecord(w, Ranked(Values(w.players))[i])
  {
    var ranked := Ranked(Values(w.players));
    assert ranked[i] in multiset(ranked);
    ValuesOnRecord(w, ranked[i]);
  }

  /** The name and score of every player on record, connected or not. */
  function RosterEntries(w: World): set<Entry> {
    set k | k in w.players.entries :: EntryOf(w.players.entries[k])
  }

  /** Every leaderboard line is the name and score of some player on record,
      connected or not. */
  lemma LeaderboardFromRoster(w: World)
    ensures forall e :: e in Leaderboard(w) ==> e in RosterEntries(w)
  {
    forall e | e in Leaderboard(w) ensures e in RosterEntries(w) {
      var i :| 0 <= i < |Leaderboard(w)| && Leaderboard(w)[i] == e;
      BoardLine(w, i);
      RankedOnRecord(w, i);
      var k :| k in w.players.entries && w.players.entries[k] == Ranked(Values(w.players))[i];
      assert e == EntryOf(w.players.entries[k]);
    }
  }

  /** The leaderboard is the top of the whole roster: every player on record,
      connected or not, is listed or, when the board is full, scores no more
      than its last line. */
  lemma LeaderboardIsTop(w: World)
    ensures var board := Leaderboard(w);
            forall k :: k in w.players.entries ==>
              || EntryOf(w.players.entries[k]) in board
              || (|board| == LEADERBOARD_SIZE && w.players.entries[k].score <= board[LEADERBOARD_SIZE - 1].score)
  {
    var board := Leaderboard(w);
    forall k | k in w.players.entries
      ensures || EntryOf(w.players.entries[k]) in board
              || (|board| == LEADERBOARD_SIZE && w.players.entries[k].score <= board[LEADERBOARD_SIZE - 1].score)
    {
      RankedHolds(w, w.players.entries[k]);
    }
  }

  /** A player on record holds some place in the ranking, and that place is
      on the board or below a full board's last line. */
  lemma RankedHolds(w: World, p: Player)
    requires OnRecord(w, p)
    ensures var board := Leaderboard(w);
            || EntryOf(p) in board
            || (|board| == LEADERBOARD_SIZE && p.score <= board[LEADERBOARD_SIZE - 1].score)
  {
    var ranked := Ranked(Values(w.players));
    var board := Leaderboard(w);
    ValuesOnRecord(w, p);
    assert p in multiset(ranked);
    var j :| 0 <= j < |ranked| && ranked[j] == p;
    if j < |board| {
      assert board[j] == EntryOf(p);
    } else {
      assert board[LEADERBOARD_SIZE - 1] == EntryOf(ranked[LEADERBOARD_SIZE - 1]);
    }
  }

  /** The `gameState` message built from the world. */
  function Snapshot(w: World): (g: GameState)
    ensures g.players == PublicPlayers(w)
    ensures g.leaderboard == Leaderboard(w)
    ensures g.coins == PastCoins(w)
    ensures |g.players| == |set k | k in w.players.entries && w.players.entries[k].connected|
    ensures |g.players| <= |w.players.keys| && |g.coins| == |w.coins.keys|
    ensures |g.leaderboard| <= LEADERBOARD_SIZE
    ensures g.speedLimit == w.speedLimit
  {
    PublicPlayersCount(w);
    GameState(PublicPlayers(w), Values(w.coins), Leaderboard(w), w.speedLimit)
  }

  /** In every reachable state the broadcast shows players and coins on the
      board, at most ten coins, at most ten leaderboard lines, and a speed
      limit in `[5, 14]`. */
  lemma SnapshotWithinBounds(w: World)
    requires Inv(w)
    ensures var g := Snapshot(w);
            && (forall v :: v in g.players ==> OnBoard(v.x, v.y))
            && |g.coins| <= MAX_COINS
            && (forall c :: c in g.coins ==> OnBoard(c.x, c.y))
            && |g.leaderboard| <= LEADERBOARD_SIZE
            && MIN_SPEED_LIMIT <= g.speedLimit <= MAX_SPEED_LIMIT
  {
    PublicPlayersExact(w);
  }

  /** The `pastCoins` reply: the coins on the board, in the order they spawned. */
  function PastCoins(w: World): (cs: seq<Coin>)
    ensures |cs| == |w.coins.keys|
    ensures forall id :: id in w.coins.entries ==> w.coins.entries[id] in cs
    ensures forall i :: 0 <= i < |cs| ==> cs[i] == w.coins.entries[w.coins.keys[i]]
  {
    Values(w.coins)
  }

  /** In every reachable state the reply lists each coin on the board once:
      its ids are exactly the keys, in spawn order, pairwise distinct. */
  lemma PastCoinsListsBoard(w: World)
    requires Inv(w)
    ensures var cs := PastCoins(w);
            && |cs| == |w.coins.keys|
            && (forall i :: 0 <= i < |cs| ==> cs[i].id == w.coins.keys[i] && OnBoard(cs[i].x, cs[i].y))
            && (forall i, j :: 0 <= i < j < |cs| ==> cs[i].id != cs[j].id)
  {
    var cs := PastCoins(w);
    forall i | 0 <= i < |cs| ensures cs[i].id == w.coins.keys[i] {
      assert w.coins.keys[i] in w.coins.entries;
    }
  }
}
