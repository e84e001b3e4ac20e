/** The server as a whole (world/server.js, lines 67-193): the world plus the
    open WebSocket connections, each of which remembers the secret its last
    `create` bound it to, driven by a trace of connection, message and timer
    events.  A server runs either the `move` handler as written, which is
    the source's behaviour, or the corrected one; the trace lemmas hold for
    both. */
module Server {
  import opened Wrappers
  import opened Dicts
  import opened Game
  import Sessions
  import Moves
  import Spawner
  import Board

  /** Which `move` handler the server runs. */
  datatype Handler = AsWritten | Corrected

  /** The world and, for every open connection, `ws.playerSecret`. */
  datatype State = State(world: World, conns: map<nat, Option<Secret>>, nextConn: nat, handler: Handler)

  datatype Event =
    | Open
    | CreateMsg(conn: nat, requested: Option<string>, uuid: Secret, name: string, color: string, rx: real, ry: real)
    | MoveMsg(conn: nat, heading: Moves.Heading, velocity: real)
    | PastCoinsMsg(conn: nat)
    | Closed(conn: nat)
    | SpawnTick(coinUuid: CoinId, cx: real, cy: real)
    | SpeedTick(r: real)

  /** What the environment guarantees of an event: `uuidv4()` is never empty
      and `Math.random()` lies in `[0, 1)`. */
  predicate Admissible(e: Event) {
    match e
    case CreateMsg(_, _, uuid, _, _, rx, ry) => uuid != "" && 0.0 <= rx < 1.0 && 0.0 <= ry < 1.0
    case SpawnTick(_, cx, cy) => 0.0 <= cx < 1.0 && 0.0 <= cy < 1.0
    case SpeedTick(r) => 0.0 <= r < 1.0
    case _ => true
  }

  function Start(handler: Handler): State {
    State(Init(), map[], 0, handler)
  }

  /** The server's response to one event.  Messages on a connection that is
      not open change nothing. */
  function Step(s: State, e: Event): (t: State)
    requires Admissible(e)
    ensures e.Open? ==> t.nextConn == s.nextConn + 1 && t.conns == s.conns[s.nextConn := None]
    ensures !e.Open? ==> t.nextConn == s.nextConn
    ensures e.Closed? ==> t.conns.Keys == s.conns.Keys - {e.conn}
    ensures (e.Open? || e.Closed? || e.CreateMsg?) || t.conns == s.conns
    ensures e.PastCoinsMsg? ==> t == s
    ensures e.MoveMsg? && e.conn in s.conns && s.handler == AsWritten ==>
      t.world == Moves.MoveAsWritten(s.world, s.conns[e.conn], e.heading, e.velocity)
    ensures e.MoveMsg? && e.conn in s.conns && s.handler == Corrected ==>
      t.world == Moves.Move(s.world, s.conns[e.conn], e.heading, e.velocity)
    ensures e.CreateMsg? && e.conn in s.conns ==>
      var j := Sessions.Create(s.world, e.requested, e.uuid, e.name, e.color, e.rx, e.ry);
      && j.secret == Sessions.ChooseSecret(e.requested, e.uuid)
      && t.conns == s.conns[e.conn := Some(j.secret)] && t.world == j.world
    ensures e.Closed? && e.conn in s.conns ==> t.world == Sessions.Close(s.world, s.conns[e.conn])
    ensures e.SpawnTick? ==> t.world == Spawner.SpawnCoin(s.world, e.coinUuid, e.cx, e.cy) && t.conns == s.conns
    ensures e.SpeedTick? ==> t.world == Spawner.UpdateSpeedLimit(s.world, e.r) && t.conns == s.conns
    ensures (e.CreateMsg? || e.MoveMsg? || e.Closed?) && e.conn !in s.conns ==> t == s
    ensures t.handler == s.handler
  {
    match e
    case Open =>
      s.(conns := s.conns[s.nextConn := None], nextConn := s.nextConn + 1)
    case CreateMsg(c, requested, uuid, name, color, rx, ry) =>
      if c !in s.conns then s
      else
        var j := Sessions.Create(s.world, requested, uuid, name, color, rx, ry);
        s.(world := j.world, conns := s.conns[c := Some(j.secret)])
    case MoveMsg(c, h, v) =>
      if c !in s.conns then s
      else if s.handler == AsWritten then s.(world := Moves.MoveAsWritten(s.world, s.conns[c], h, v))
      else s.(world := Moves.Move(s.world, s.conns[c], h, v))
    case PastCoinsMsg(_) => s
    case Closed(c) =>
      if c !in s.conns then s
      else s.(world := Sessions.Close(s.world, s.conns[c]), conns := s.conns - {c})
    case SpawnTick(uuid, cx, cy) =>
      s.(world := Spawner.SpawnCoin(s.world, uuid, cx, cy))
    case SpeedTick(r) =>
      s.(world := Spawner.UpdateSpeedLimit(s.world, r))
  }

  /** Every bound connection names a player on record; connection numbers
      are below the next one to hand out. */
  ghost predicate Linked(s: State) {
    && (forall c :: c in s.conns && s.conns[c].Some? ==> s.conns[c].value in s.world.players.entries)
    && (forall c :: c in s.conns ==> c < s.nextConn)
  }

  ghost predicate Good(s: State) {
    Inv(s.world) && Linked(s)
  }

  /** 1 when the event places a new coin on the board: a spawn tick with
      room under the cap and an id not yet in use; 0 for every other event. */
  function Added(s: State, e: Event): nat {
    if e.SpawnTick? && |s.world.coins.keys| < Board.MAX_COINS && e.coinUuid !in s.world.coins.entries then 1 else 0
  }

  function Run(s: State, es: seq<Event>): State
    requires forall i :: 0 <= i < |es| ==> Admissible(es[i])
    decreases |es|
  {
    if es == [] then s else Run(Step(s, es[0]), es[1..])
  }

  /** The number of new coins placed along a trace from `s`. */
  function Spawned(s: State, es: seq<Event>): nat
    requires forall i :: 0 <= i < |es| ==> Admissible(es[i])
    decreases |es|
  {
    if es == [] then 0 else Added(s, es[0]) + Spawned(Step(s, es[0]), es[1..])
  }

  /** After `create` the connection names the record it joined, and every
      other connection still names a record. */
  lemma CreateKeepsLinked(s: State, e: Event)
    requires e.CreateMsg? && Admissible(e) && e.conn in s.conns
    requires Linked(s)
    ensures Linked(Step(s, e))
  {
    var j := Sessions.Create(s.world, e.requested, e.uuid, e.name, e.color, e.rx, e.ry);
    assert Step(s, e) == s.(world := j.world, conns := s.conns[e.conn := Some(j.secret)]);
  }

  /** One step keeps the reachable-state invariants, keeps every record and
      never lowers a score.  The total score plus the coins on the board goes
      up by exactly the coins the step places: a collected coin turns into
      one point, and only a spawn that adds a coin adds one. */
  lemma StepPreservesGood(s: State, e: Event)
    requires Admissible(e) && Good(s)
    ensures Good(Step(s, e))
    ensures ScoresKept(s.world, Step(s, e).world)
    ensures TotalScore(Step(s, e).world) + |Step(s, e).world.coins.keys|
         == TotalScore(s.world) + |s.world.coins.keys| + Added(s, e)
  {
    match e
    case Open =>
    case CreateMsg(c, requested, uuid, name, color, rx, ry) =>
      if c in s.conns {
        Sessions.CreatePreservesInv(s.world, requested, uuid, name, color, rx, ry);
        CreateKeepsLinked(s, e);
      }
    case MoveMsg(c, h, v) =>
      if c in s.conns {
        Moves.MoveAsWrittenPreservesInv(s.world, s.conns[c], h, v);
        Moves.MovePreservesInv(s.world, s.conns[c], h, v);
      }
    case PastCoinsMsg(_) =>
    case Closed(c) =>
      if c in s.conns {
        Sessions.ClosePreservesInv(s.world, s.conns[c]);
      }
    case SpawnTick(uuid, cx, cy) =>
      Spawner.SpawnPreservesInv(s.world, uuid, cx, cy);
      Spawner.SpawnAddsAtMostOne(s.world, uuid, cx, cy);
    case SpeedTick(r) =>
      Spawner.UpdateSpeedLimitPreservesInv(s.world, r);
  }

  /** Along any trace from a good state: the invariants hold at the end (so
      every position is on the board, there are at most ten coins and the
      limit is in `[5, 14]`), nobody's record disappears, no score goes down,
      and the points awarded plus the coins left are exactly what was there
      plus the coins placed, so every coin is scored at most once. */
  lemma {:induction false} RunPreservesGood(s: State, es: seq<Event>)
    requires forall i :: 0 <= i < |es| ==> Admissible(es[i])
    requires Good(s)
    ensures Good(Run(s, es))
    ensures ScoresKept(s.world, Run(s, es).world)
    ensures TotalScore(Run(s, es).world) + |Run(s, es).world.coins.keys|
         == TotalScore(s.world) + |s.world.coins.keys| + Spawned(s, es)
    decreases |es|
  {
    if es != [] {
      var t := Step(s, es[0]);
      StepPreservesGood(s, es[0]);
      RunPreservesGood(t, es[1..]);
      ScoresKeptTransitive(s.world, t.world, Run(t, es[1..]).world);
    }
  }

  /** From a fresh start, every coin ever placed is either still on the board
      or has been scored once, so the total score never exceeds the number of
      coins placed. */
  lemma ScoreBoundedBySpawns(handler: Handler, es: seq<Event>)
    requires forall i :: 0 <= i < |es| ==> Admissible(es[i])
    ensures Good(Run(Start(handler), es))
    ensures TotalScore(Run(Start(handler), es).world) + |Run(Start(handler), es).world.coins.keys|
         == Spawned(Start(handler), es)
    ensures TotalScore(Run(Start(handler), es).world) <= Spawned(Start(handler), es)
  {
    RunPreservesGood(Start(handler), es);
  }

  /** Two spawn ticks with the same id place one coin, not two. */
  lemma RepeatedIdPlacesOnce(handler: Handler)
    ensures Spawned(Start(handler), [SpawnTick("a", 0.5, 0.5), SpawnTick("a", 0.5, 0.5)]) == 1
  {
    var es := [SpawnTick("a", 0.5, 0.5), SpawnTick("a", 0.5, 0.5)];
    var t := Step(Start(handler), es[0]);
    assert "a" in t.world.coins.entries;
    assert es[1..][1..] == [];
  }
}
