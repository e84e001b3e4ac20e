/** Coin pickup inside the `move` handler (world/server.js, lines 123-140):
    every coin closer than the collection radius to the player's final
    position is deleted, and the player scores one point per deleted coin. */
module Collection {
  import opened Dicts
  import opened Board
  import opened Game

  /** A player standing at (x, y) picks up coin `c`. */
  predicate Reaches(c: Coin, x: real, y: real) {
    WithinReach(x, y, c.x, c.y)
  }

  /** The pickup test of a player standing at (x, y): the coin lies closer
      than the collection radius.  The loop below is stated for any such test
      `near`, which keeps the distance arithmetic out of the reasoning about
      keys and deletions. */
  function Near(x: real, y: real): Coin -> bool {
    (c: Coin) => Reaches(c, x, y)
  }

  /** The ids among `ids` whose coin passes `near`, in visiting order. */
  function Caught(ids: seq<CoinId>, coins: map<CoinId, Coin>, near: Coin -> bool): (r: seq<CoinId>)
    requires forall id :: id in ids ==> id in coins
  {
    if ids == [] then []
    else
      var last := ids[|ids| - 1];
      Caught(ids[..|ids| - 1], coins, near) + (if near(coins[last]) then [last] else [])
  }

  /** The ids among `ids` whose coin fails `near`, in visiting order. */
  function Missed(ids: seq<CoinId>, coins: map<CoinId, Coin>, near: Coin -> bool): (r: seq<CoinId>)
    requires forall id :: id in ids ==> id in coins
  {
    if ids == [] then []
    else
      var last := ids[|ids| - 1];
      Missed(ids[..|ids| - 1], coins, near) + (if near(coins[last]) then [] else [last])
  }

  /** An id is missed exactly when it was visited and its coin is out of reach. */
  lemma {:induction false} MissedMember(ids: seq<CoinId>, coins: map<CoinId, Coin>, near: Coin -> bool, z: CoinId)
    requires forall id :: id in ids ==> id in coins
    ensures z in Missed(ids, coins, near) <==> z in ids && !near(coins[z])
  {
    if ids != [] {
      var init := ids[..|ids| - 1];
      assert ids == init + [ids[|ids| - 1]];
      MissedMember(init, coins, near, z);
    }
  }

  /** Every visited id is either caught or missed, never both. */
  lemma {:induction false} CaughtMissedCount(ids: seq<CoinId>, coins: map<CoinId, Coin>, near: Coin -> bool)
    requires forall id :: id in ids ==> id in coins
    ensures |Caught(ids, coins, near)| + |Missed(ids, coins, near)| == |ids|
  {
    if ids != [] {
      CaughtMissedCount(ids[..|ids| - 1], coins, near);
    }
  }

  /** Dropping the caught ids from a list without repeats leaves a list without repeats. */
  lemma {:induction false} MissedDistinct(ids: seq<CoinId>, coins: map<CoinId, Coin>, near: Coin -> bool)
    requires forall id :: id in ids ==> id in coins
    requires Distinct(ids)
    ensures Distinct(Missed(ids, coins, near))
  {
    if ids != [] {
      var init := ids[..|ids| - 1];
      var last := ids[|ids| - 1];
      assert forall i :: 0 <= i < |init| ==> init[i] == ids[i];
      assert last !in init;
      MissedMember(init, coins, near, last);
      MissedDistinct(init, coins, near);
    }
  }

  /** The element at `i` of a list without repeats occurs neither before nor after `i`. */
  lemma DistinctAt(s: seq<CoinId>, i: nat)
    requires Distinct(s) && i < |s|
    ensures s[i] !in s[..i] && s[i] !in s[i + 1..]
  {
    forall j | 0 <= j < i ensures s[..i][j] != s[i] {
      assert s[..i][j] == s[j];
    }
    assert forall j :: i < j < |s| ==> s[j] != s[i];
  }

  /** Splitting off the head of a suffix. */
  lemma Regroup(a: seq<CoinId>, s: seq<CoinId>, i: nat)
    requires i < |s|
    ensures a + s[i..] == a + [s[i]] + s[i + 1..]
  {
    assert s[i..] == [s[i]] + s[i + 1..];
  }

  /** Visiting one more id extends the caught or the missed list by that id. */
  lemma PrefixStep(ids: seq<CoinId>, coins: map<CoinId, Coin>, near: Coin -> bool, i: nat)
    requires forall id :: id in ids ==> id in coins
    requires i < |ids|
    ensures Caught(ids[..i + 1], coins, near)
      == Caught(ids[..i], coins, near) + (if near(coins[ids[i]]) then [ids[i]] else [])
    ensures Missed(ids[..i + 1], coins, near)
      == Missed(ids[..i], coins, near) + (if near(coins[ids[i]]) then [] else [ids[i]])
  {
    assert ids[..i + 1][..i] == ids[..i];
  }

  /** The coins left once every coin passing `near` has been collected. */
  function Uncollected(coins: Dict<Coin>, near: Coin -> bool): (r: Dict<Coin>)
    ensures r.keys == Missed(coins.keys, coins.entries, near)
    ensures forall id :: id in r.entries <==> id in coins.entries && !near(coins.entries[id])
    ensures forall id :: id in r.entries ==> r.entries[id] == coins.entries[id]
    ensures |r.keys| == |coins.keys| - |Caught(coins.keys, coins.entries, near)|
  {
    MissedDistinct(coins.keys, coins.entries, near);
    CaughtMissedCount(coins.keys, coins.entries, near);
    forall z {
      MissedMember(coins.keys, coins.entries, near, z);
    }
    RawDict(Missed(coins.keys, coins.entries, near),
            map id | id in coins.entries && !near(coins.entries[id]) :: coins.entries[id])
  }

  /** The state of the collection loop: the key order and entries still
      present, and how many coins it has deleted so far. */
  datatype Sweep = Sweep(keys: seq<CoinId>, entries: map<CoinId, Coin>, gained: nat)

  /** The loop state after visiting the first `i` ids, each visit deleting
      and counting a coin within reach and passing over any other. */
  function SweepUpTo(ids: seq<CoinId>, coins: map<CoinId, Coin>, near: Coin -> bool, i: nat): Sweep
    requires i <= |ids|
    requires forall id :: id in ids ==> id in coins
  {
    if i == 0 then Sweep(ids, coins, 0)
    else
      var s := SweepUpTo(ids, coins, near, i - 1);
      var id := ids[i - 1];
      if near(coins[id]) then Sweep(Without(s.keys, id), s.entries - {id}, s.gained + 1)
      else s
  }

  /** What the loop state after `i` visits amounts to: the prefix's missed ids
      followed by the unvisited ones, the entries minus the prefix's caught
      coins, and the number caught so far. */
  ghost predicate Swept(ids: seq<CoinId>, coins: map<CoinId, Coin>, near: Coin -> bool, i: nat, s: Sweep)
    requires i <= |ids|
    requires forall id :: id in ids ==> id in coins
  {
    && s.keys == Missed(ids[..i], coins, near) + ids[i..]
    && (forall id :: id in s.entries <==>
          id in coins && !(id in ids[..i] && near(coins[id])))
    && (forall id :: id in s.entries ==> s.entries[id] == coins[id])
    && s.gained == |Caught(ids[..i], coins, near)|
  }

  /** After one more visit, a coin counts as visited and caught exactly when
      it did before or it is the coin just visited and passes `near`. */
  lemma VisitOne(ids: seq<CoinId>, coins: map<CoinId, Coin>, near: Coin -> bool, i: nat)
    requires forall id :: id in ids ==> id in coins
    requires i < |ids|
    ensures forall id :: id in coins ==>
      ((id in ids[..i + 1] && near(coins[id])) <==> (id in ids[..i] && near(coins[id])) || (id == ids[i] && near(coins[id])))
  {
    assert ids[..i + 1] == ids[..i] + [ids[i]];
  }

  /** Deleting the caught coin from the key order. */
  lemma SweepCaughtKeys(ids: seq<CoinId>, coins: map<CoinId, Coin>, near: Coin -> bool, i: nat, keys: seq<CoinId>)
    requires forall id :: id in ids ==> id in coins
    requires Distinct(ids) && i < |ids|
    requires keys == Missed(ids[..i], coins, near) + ids[i..]
    requires near(coins[ids[i]])
    ensures Without(keys, ids[i]) == Missed(ids[..i + 1], coins, near) + ids[i + 1..]
  {
    var id := ids[i];
    DistinctAt(ids, i);
    PrefixStep(ids, coins, near, i);
    var before := Missed(ids[..i], coins, near);
    Regroup(before, ids, i);
    MissedMember(ids[..i], coins, near, id);
    WithoutSplit(before, id, ids[i + 1..]);
  }

  /** A visit to a coin within reach deletes and counts it. */
  lemma SweepCaught(ids: seq<CoinId>, coins: map<CoinId, Coin>, near: Coin -> bool, i: nat, s: Sweep)
    requires forall id :: id in ids ==> id in coins
    requires Distinct(ids) && i < |ids|
    requires Swept(ids, coins, near, i, s)
    requires near(coins[ids[i]])
    ensures Swept(ids, coins, near, i + 1, Sweep(Without(s.keys, ids[i]), s.entries - {ids[i]}, s.gained + 1))
  {
    SweepCaughtKeys(ids, coins, near, i, s.keys);
    PrefixStep(ids, coins, near, i);
    VisitOne(ids, coins, near, i);
  }

  /** A visit to a coin out of reach changes nothing. */
  lemma SweepMissed(ids: seq<CoinId>, coins: map<CoinId, Coin>, near: Coin -> bool, i: nat, s: Sweep)
    requires forall id :: id in ids ==> id in coins
    requires i < |ids|
    requires Swept(ids, coins, near, i, s)
    requires !near(coins[ids[i]])
    ensures Swept(ids, coins, near, i + 1, s)
  {
    PrefixStep(ids, coins, near, i);
    Regroup(Missed(ids[..i], coins, near), ids, i);
    VisitOne(ids, coins, near, i);
  }

  /** Before the first visit nothing is deleted or counted. */
  lemma SweptStart(ids: seq<CoinId>, coins: map<CoinId, Coin>, near: Coin -> bool)
    requires forall id :: id in ids ==> id in coins
    ensures Swept(ids, coins, near, 0, Sweep(ids, coins, 0))
  {
    assert ids[..0] == [];
    assert ids[0..] == ids;
  }

  /** Every prefix of the loop has the meaning `Swept` gives it. */
  lemma {:induction false} SweepUpToSwept(ids: seq<CoinId>, coins: map<CoinId, Coin>, near: Coin -> bool, i: nat)
    requires forall id :: id in ids ==> id in coins
    requires Distinct(ids) && i <= |ids|
    ensures Swept(ids, coins, near, i, SweepUpTo(ids, coins, near, i))
  {
    if i == 0 {
      SweptStart(ids, coins, near);
    } else {
      var s := SweepUpTo(ids, coins, near, i - 1);
      SweepUpToSwept(ids, coins, near, i - 1);
      if near(coins[ids[i - 1]]) {
        SweepCaught(ids, coins, near, i - 1, s);
      } else {
        SweepMissed(ids, coins, near, i - 1, s);
      }
    }
  }

  /** Visiting every coin leaves exactly the coins out of reach, in their
      original order, and counts exactly the coins removed. */
  lemma SweepAll(coins: Dict<Coin>, near: Coin -> bool)
    ensures var s := SweepUpTo(coins.keys, coins.entries, near, |coins.keys|);
            && RawDict(s.keys, s.entries) == Uncollected(coins, near)
            && s.gained == |coins.keys| - |s.keys|
  {
    var ids := coins.keys;
    SweepUpToSwept(ids, coins.entries, near, |ids|);
    assert ids[..|ids|] == ids;
    assert SweepUpTo(ids, coins.entries, near, |ids|).entries == Uncollected(coins, near).entries;
    CaughtMissedCount(ids, coins.entries, near);
  }

  /** The collection loop as written, for the pickup test `near` of the
      moving player (`Near(x, y)` in the handler): visit the coins in key
      order, delete each one that passes and count the deletions.  It keeps
      exactly the coins `Uncollected` keeps, and the count is the number of
      coins removed. */
  method CollectCoins(coins: Dict<Coin>, near: Coin -> bool) returns (kept: Dict<Coin>, gained: nat)
    ensures kept == Uncollected(coins, near)
    ensures gained == |coins.keys| - |kept.keys|
  {
    var keys := coins.keys;
    var entries := coins.entries;
    gained := 0;
    var i := 0;
    while i < |coins.keys|
      invariant i <= |coins.keys|
      invariant Sweep(keys, entries, gained) == SweepUpTo(coins.keys, coins.entries, near, i)
    {
      var id := coins.keys[i];
      // only visited keys have been deleted, so this is the coin as it was
      var coin := coins.entries[id];
      if near(coin) {
        gained := gained + 1;
        keys := Without(keys, id);
        entries := entries - {id};
      }
      i := i + 1;
    }
    SweepAll(coins, near);
    kept := RawDict(keys, entries);
  }
}
