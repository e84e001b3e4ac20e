/** Joining, rejoining and leaving (world/server.js, lines 82-106 and 156-166).
    A connection is bound to the secret of the player it created or resumed;
    closing it marks that player as disconnected but keeps the record, so a
    later `create` with the same secret resumes score and position. */
module Sessions {
  import opened Wrappers
  import opened Dicts
  import opened Board
  import opened Game

  /** The world after a `create` message, and the secret the connection is now bound to. */
  datatype Joined = Joined(world: World, secret: Secret)

  /** `data.secret || uuidv4()`: a missing or empty secret is replaced by a fresh uuid. */
  function ChooseSecret(requested: Option<string>, uuid: Secret): (s: Secret)
    requires uuid != ""
    ensures s != ""
    ensures requested.Some? && requested.value != "" ==> s == requested.value
    ensures requested.None? || requested.value == "" ==> s == uuid
  {
    match requested
    case Some(t) => if t != "" then t else uuid
    case None => uuid
  }

  /** The `create` handler.  `uuid` is what `uuidv4()` would return and is only
      used when no secret was sent; `rx` and `ry` are the two `Math.random()`
      draws that place a new player. */
  function Create(w: World, requested: Option<string>, uuid: Secret, name: string, color: string,
                  rx: real, ry: real): (j: Joined)
    requires uuid != ""
    requires 0.0 <= rx < 1.0 && 0.0 <= ry < 1.0
    ensures j.secret == ChooseSecret(requested, uuid)
    ensures j.secret in j.world.players.entries && j.world.players.entries[j.secret].connected
    ensures j.world.coins == w.coins && j.world.speedLimit == w.speedLimit
    // a known secret: only the connected flag changes, and no second record appears
    ensures j.secret in w.players.entries ==>
      && j.world.players.keys == w.players.keys
      && j.world.players.entries == w.players.entries[j.secret := w.players.entries[j.secret].(connected := true)]
    // an unknown secret: exactly one fresh record, appended after the existing ones
    ensures j.secret !in w.players.entries ==>
      && j.world.players.keys == w.players.keys + [j.secret]
      && (forall k :: k in w.players.entries ==>
            k in j.world.players.entries && j.world.players.entries[k] == w.players.entries[k])
      && var p := j.world.players.entries[j.secret];
         && p.name == name && p.color == color && p.secret == j.secret
         && p.score == 0 && p.connected && !p.overSpeed
         && 0.0 <= p.x < GAME_WIDTH && 0.0 <= p.y < GAME_HEIGHT
  {
    var s := ChooseSecret(requested, uuid);
    if s in w.players.entries then
      var p := w.players.entries[s];
      Joined(w.(players := Put(w.players, s, p.(connected := true))), s)
    else
      var p := Player(name, color, s, RandomX(rx), RandomY(ry), 0, true, false);
      Joined(w.(players := Put(w.players, s, p)), s)
  }

  /** The `close` handler: the player bound to the closing connection, if any,
      is marked disconnected (an empty secret is falsy and skipped).  No record
      is ever removed. */
  function Close(w: World, bound: Option<Secret>): (r: World)
    ensures r.players.keys == w.players.keys
    ensures r.coins == w.coins && r.speedLimit == w.speedLimit
    ensures forall k :: k in w.players.entries <==> k in r.players.entries
    ensures forall k :: k in w.players.entries ==>
      r.players.entries[k] ==
        if bound == Some(k) && k != "" then w.players.entries[k].(connected := false) else w.players.entries[k]
  {
    match bound
    case Some(s) =>
      if s != "" && s in w.players.entries then
        w.(players := Put(w.players, s, w.players.entries[s].(connected := false)))
      else w
    case None => w
  }

  /** `create` keeps every reachable-state invariant and every score. */
  lemma CreatePreservesInv(w: World, requested: Option<string>, uuid: Secret, name: string, color: string,
                           rx: real, ry: real)
    requires uuid != ""
    requires 0.0 <= rx < 1.0 && 0.0 <= ry < 1.0
    requires Inv(w)
    ensures Inv(Create(w, requested, uuid, name, color, rx, ry).world)
    ensures ScoresKept(w, Create(w, requested, uuid, name, color, rx, ry).world)
    ensures TotalScore(Create(w, requested, uuid, name, color, rx, ry).world) == TotalScore(w)
  {
    var j := Create(w, requested, uuid, name, color, rx, ry);
    if j.secret in w.players.entries {
      TotalScorePut(w, j.secret, j.world.players.entries[j.secret], j.world);
    } else {
      SumScoresAppend(w.players.keys, w.players.entries, j.secret, j.world.players.entries[j.secret]);
    }
    assert forall k :: k in j.world.players.entries ==> PlayerOk(k, j.world.players.entries[k]) by {
      forall k | k in j.world.players.entries ensures PlayerOk(k, j.world.players.entries[k]) {
        if k != j.secret {
          assert j.world.players.entries[k] == w.players.entries[k];
        }
      }
    }
  }

  /** `close` keeps every reachable-state invariant and every score. */
  lemma ClosePreservesInv(w: World, bound: Option<Secret>)
    requires Inv(w)
    ensures Inv(Close(w, bound))
    ensures ScoresKept(w, Close(w, bound))
    ensures TotalScore(Close(w, bound)) == TotalScore(w)
  {
    if bound.Some? && bound.value in w.players.entries {
      TotalScorePut(w, bound.value, Close(w, bound).players.entries[bound.value], Close(w, bound));
    }
  }

  /** Leaving and coming back with the same secret restores the record exactly:
      same name, colour, position, score and speed flag, connected again. */
  lemma CloseThenRejoin(w: World, s: Secret, uuid: Secret, name: string, color: string, rx: real, ry: real)
    requires Inv(w)
    requires s in w.players.entries && w.players.entries[s].connected
    requires uuid != ""
    requires 0.0 <= rx < 1.0 && 0.0 <= ry < 1.0
    ensures Create(Close(w, Some(s)), Some(s), uuid, name, color, rx, ry) == Joined(w, s)
  {
    var c := Close(w, Some(s));
    var j := Create(c, Some(s), uuid, name, color, rx, ry);
    assert j.world.players.entries == w.players.entries;
  }

  /** A second `create` with a secret already in use resumes that record rather than duplicating it. */
  lemma RejoinDoesNotDuplicate(w: World, s: Secret, uuid: Secret, name: string, color: string,
                               rx: real, ry: real)
    requires s != "" && uuid != ""
    requires 0.0 <= rx < 1.0 && 0.0 <= ry < 1.0
    ensures var j1 := Create(w, Some(s), uuid, name, color, rx, ry);
            var j2 := Create(j1.world, Some(s), uuid, name, color, rx, ry);
            j2.secret == j1.secret && j2.world == j1.world
  {
    var j1 := Create(w, Some(s), uuid, name, color, rx, ry);
    var j2 := Create(j1.world, Some(s), uuid, name, color, rx, ry);
    assert j2.world.players.entries == j1.world.players.entries;
  }
}
