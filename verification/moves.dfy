/** The `move` handler (world/server.js, lines 108-142): cap the requested
    velocity, set the speed flag, step the position unless flagged, clamp it
    to the board, then collect every coin within reach of where the player
    now stands.  Movement and collection happen once per received message. */
module Moves {
  import opened Wrappers
  import opened Dicts
  import opened Board
  import opened Game
  import Sessions
  import opened Collection

  /** `Math.cos(angle)` and `Math.sin(angle)` of the requested angle. */
  datatype Heading = Heading(cos: real, sin: real)

  /** Both components lie in `[-1, 1]`, as a cosine and a sine always do. */
  predicate UnitBounded(h: Heading) {
    -1.0 <= h.cos <= 1.0 && -1.0 <= h.sin <= 1.0
  }

  /** `Math.min(velocity, 20)`: as written, the cap only bounds the velocity from above. */
  function CapAsWritten(v: real): (c: real)
    ensures c <= VELOCITY_CAP
    ensures v <= VELOCITY_CAP ==> c == v
    ensures VELOCITY_CAP < v ==> c == VELOCITY_CAP
  {
    Min(v, VELOCITY_CAP)
  }

  /** The cap as evidently intended: the velocity is held in `[0, 20]`. */
  function CapVelocity(v: real): (c: real)
    ensures 0.0 <= c <= VELOCITY_CAP
    ensures 0.0 <= v <= VELOCITY_CAP ==> c == v
    ensures v < 0.0 ==> c == 0.0
    ensures VELOCITY_CAP < v ==> c == VELOCITY_CAP
  {
    Clamp(0.0, VELOCITY_CAP, v)
  }

  /** Lines 111-121 for one player, given the capped velocity `v`: set the
      speed flag and, unless it is set, step along the heading and clamp the
      result to the board.  Nothing but position and flag changes. */
  function StepPlayer(p: Player, h: Heading, v: real, limit: int): (q: Player)
    ensures q.overSpeed == (v > limit as real)
    ensures q.overSpeed ==> q.x == p.x && q.y == p.y
    ensures !q.overSpeed ==>
      q.x == Clamp(0.0, GAME_WIDTH, p.x + h.cos * v) && q.y == Clamp(0.0, GAME_HEIGHT, p.y + h.sin * v)
    ensures q == p.(x := q.x, y := q.y, overSpeed := q.overSpeed)
    ensures OnBoard(p.x, p.y) ==> OnBoard(q.x, q.y)
  {
    var over := v > limit as real;
    if over then p.(overSpeed := true)
    else p.(x := Clamp(0.0, GAME_WIDTH, p.x + h.cos * v),
            y := Clamp(0.0, GAME_HEIGHT, p.y + h.sin * v),
            overSpeed := false)
  }

  /** The body of the handler once the player's key and the capped velocity
      `v` are known; shared by the handler as written and the corrected one.
      Only a connected player moves.  Collection runs from the player's final
      position whether or not the flag is set, removes exactly the coins
      within reach, and adds one point per removed coin. */
  function Advance(w: World, key: Secret, h: Heading, v: real): (r: World)
    ensures key !in w.players.entries || !w.players.entries[key].connected ==> r == w
    ensures r.speedLimit == w.speedLimit
    ensures r.players.keys == w.players.keys
    ensures |r.coins.keys| <= |w.coins.keys|
    ensures forall k :: k in w.players.entries <==> k in r.players.entries
    ensures forall k :: k in w.players.entries && k != key ==> r.players.entries[k] == w.players.entries[k]
    ensures key in w.players.entries && w.players.entries[key].connected ==>
      var p := w.players.entries[key];
      var moved := StepPlayer(p, h, v, w.speedLimit);
      && r.players.entries[key] == moved.(score := p.score + (|w.coins.keys| - |r.coins.keys|))
      && (forall id :: id in r.coins.entries <==>
            id in w.coins.entries && !Near(moved.x, moved.y)(w.coins.entries[id]))
      && (forall id :: id in r.coins.entries ==> r.coins.entries[id] == w.coins.entries[id])
      && r.coins.keys == Missed(w.coins.keys, w.coins.entries, Near(moved.x, moved.y))
  {
    if key in w.players.entries && w.players.entries[key].connected then
      var p := w.players.entries[key];
      var moved := StepPlayer(p, h, v, w.speedLimit);
      var gained := |Caught(w.coins.keys, w.coins.entries, Near(moved.x, moved.y))|;
      World(Put(w.players, key, moved.(score := p.score + gained)),
            Uncollected(w.coins, Near(moved.x, moved.y)), w.speedLimit)
    else w
  }

  /** `players[ws.playerSecret]`: a connection that never sent `create` has no
      secret, and JavaScript converts the missing key to the string "undefined". */
  function LookupKey(bound: Option<Secret>): (k: Secret)
    ensures bound.Some? ==> k == bound.value
    ensures k == "undefined" <==> bound.None? || bound.value == "undefined"
  {
    match bound
    case Some(s) => s
    case None => "undefined"
  }

  /** The `move` handler exactly as written. */
  function MoveAsWritten(w: World, bound: Option<Secret>, h: Heading, velocity: real): (r: World)
    ensures bound.Some? && 0.0 <= velocity ==> r == Move(w, bound, h, velocity)
    ensures bound.None? && "undefined" !in w.players.entries ==> r == w
  {
    Advance(w, LookupKey(bound), h, CapAsWritten(velocity))
  }

  /** The `move` handler as evidently intended: a connection with no player does
      nothing, and the velocity is held in `[0, 20]`. */
  function Move(w: World, bound: Option<Secret>, h: Heading, velocity: real): (r: World)
    ensures bound.None? ==> r == w
    ensures bound.Some? && (bound.value !in w.players.entries || !w.players.entries[bound.value].connected) ==> r == w
  {
    match bound
    case None => w
    case Some(s) => Advance(w, s, h, CapVelocity(velocity))
  }

  /** A move keeps every reachable-state invariant, keeps every score, and
      turns each coin it removes into exactly one point: the total score plus
      the number of coins on the board does not change. */
  lemma AdvancePreservesInv(w: World, key: Secret, h: Heading, v: real)
    requires Inv(w)
    ensures Inv(Advance(w, key, h, v))
    ensures ScoresKept(w, Advance(w, key, h, v))
    ensures TotalScore(Advance(w, key, h, v)) + |Advance(w, key, h, v).coins.keys|
         == TotalScore(w) + |w.coins.keys|
  {
    var r := Advance(w, key, h, v);
    if key in w.players.entries && w.players.entries[key].connected {
      var q := r.players.entries[key];
      assert r.players == Put(w.players, key, q);
      TotalScorePut(w, key, q, r);
    }
  }

  /** The handler as written keeps the invariants and the coin/score balance. */
  lemma MoveAsWrittenPreservesInv(w: World, bound: Option<Secret>, h: Heading, velocity: real)
    requires Inv(w)
    ensures Inv(MoveAsWritten(w, bound, h, velocity))
    ensures ScoresKept(w, MoveAsWritten(w, bound, h, velocity))
    ensures TotalScore(MoveAsWritten(w, bound, h, velocity)) + |MoveAsWritten(w, bound, h, velocity).coins.keys|
         == TotalScore(w) + |w.coins.keys|
  {
    AdvancePreservesInv(w, LookupKey(bound), h, CapAsWritten(velocity));
  }

  /** The corrected handler keeps the invariants and the coin/score balance. */
  lemma MovePreservesInv(w: World, bound: Option<Secret>, h: Heading, velocity: real)
    requires Inv(w)
    ensures Inv(Move(w, bound, h, velocity))
    ensures ScoresKept(w, Move(w, bound, h, velocity))
    ensures TotalScore(Move(w, bound, h, velocity)) + |Move(w, bound, h, velocity).coins.keys|
         == TotalScore(w) + |w.coins.keys|
  {
    if bound.Some? {
      AdvancePreservesInv(w, bound.value, h, CapVelocity(velocity));
    }
  }

  /** As written, a connection that never sent `create` drives the player whose
      secret is the string "undefined": after that player joins at (400, 300),
      an unbound move of velocity 5 along +x carries it to (405, 300).  The
      corrected handler leaves the world alone. */
  lemma UnboundMoveDrivesUndefined()
    ensures var w := Sessions.Create(Init(), Some("undefined"), "u", "A", "red", 0.5, 0.5).world;
            && w.players.entries["undefined"].x == 400.0
            && MoveAsWritten(w, None, Heading(1.0, 0.0), 5.0).players.entries["undefined"].x == 405.0
            && Move(w, None, Heading(1.0, 0.0), 5.0) == w
  {
  }

  /** As written, a negative velocity slips under both the cap and the speed
      limit: a player at (400, 300) under limit 10 asking for velocity -100
      at angle pi is not flagged and lands 100 units away, at (500, 300). */
  lemma NegativeVelocityOutrunsLimit()
    ensures var w := Sessions.Create(Init(), Some("s"), "u", "A", "red", 0.5, 0.5).world;
            var q := MoveAsWritten(w, Some("s"), Heading(-1.0, 0.0), -100.0).players.entries["s"];
            && w.speedLimit == 10
            && w.players.entries["s"].x == 400.0
            && !q.overSpeed && q.x == 500.0
  {
  }

  /** One axis of one step: a coordinate that starts in `[lo, hi]` and
      either stays put (flagged) or takes a clamped step along `a` in `[-1, 1]`
      at speed `c` (unflagged, `c` within the limit) moves at most `c`. */
  lemma AxisStep(lo: real, hi: real, start: real, a: real, c: real, limit: real, flagged: bool, after: real)
    requires lo <= start <= hi
    requires -1.0 <= a <= 1.0 && 0.0 <= c <= VELOCITY_CAP
    requires flagged ==> after == start
    requires !flagged ==> after == Clamp(lo, hi, start + a * c) && c <= limit
    ensures Gap(after, start) <= VELOCITY_CAP
    ensures !flagged ==> Gap(after, start) <= limit
  {
    if !flagged {
      UnitScale(a, c);
      ClampShortensStep(lo, hi, start, a * c, c);
    }
  }

  /** A step at a speed in `[0, 20]` moves a player on the board at most 20
      units along each axis, and an unflagged step at most the speed limit. */
  lemma StepWithinLimit(p: Player, h: Heading, c: real, limit: int)
    requires OnBoard(p.x, p.y) && UnitBounded(h)
    requires 0.0 <= c <= VELOCITY_CAP
    ensures var q := StepPlayer(p, h, c, limit);
            && Gap(q.x, p.x) <= VELOCITY_CAP && Gap(q.y, p.y) <= VELOCITY_CAP
            && (!q.overSpeed ==> Gap(q.x, p.x) <= limit as real && Gap(q.y, p.y) <= limit as real)
  {
    var q := StepPlayer(p, h, c, limit);
    AxisStep(0.0, GAME_WIDTH, p.x, h.cos, c, limit as real, q.overSpeed, q.x);
    AxisStep(0.0, GAME_HEIGHT, p.y, h.sin, c, limit as real, q.overSpeed, q.y);
  }

  /** With the corrected cap, one move never carries a player more than 20
      units along either axis, and an unflagged move never more than the
      speed limit. */
  lemma MoveStaysWithinLimit(w: World, s: Secret, h: Heading, velocity: real)
    requires Inv(w) && UnitBounded(h)
    requires s in w.players.entries && w.players.entries[s].connected
    ensures var p := w.players.entries[s];
            var q := Move(w, Some(s), h, velocity).players.entries[s];
            && Gap(q.x, p.x) <= VELOCITY_CAP && Gap(q.y, p.y) <= VELOCITY_CAP
            && (!q.overSpeed ==> Gap(q.x, p.x) <= w.speedLimit as real && Gap(q.y, p.y) <= w.speedLimit as real)
  {
    StepWithinLimit(w.players.entries[s], h, CapVelocity(velocity), w.speedLimit);
  }
}
