# Coin game server — a Dafny model

This project models the game state of the multiplayer coin-collecting server in
`world/server.js` and proves properties of it.

The world holds three things:

- **Players**, keyed by a secret. Each player has a name, colour, position, score,
  a connected flag and an over-speed flag.
- **Coins**, keyed by id. Each coin has a position.
- **The speed limit.**

Clients send three kinds of message:

- `create` joins a new player or reconnects an existing one.
- `move` asks to move a distance along a heading.
- `getPastCoins` asks for the coins on the board.

Closing a connection marks its player as disconnected. Two timers drive the rest:
one spawns coins and one redraws the speed limit. Thirty times a second the
server broadcasts its state: the connected players' public fields, the coins,
a top-ten leaderboard and the speed limit.

Modules, in dependency order:

- `Wrappers` (`wrappers.dfy`): `Option`.
- `Dicts` (`dicts.dfy`): a JavaScript plain object as an insertion-ordered
  dictionary. It pairs a sequence of distinct keys with a map. The order matters
  because `Object.values` fixes the order of the broadcast and breaks ties on the
  leaderboard.
- `Board` (`board.dfy`): the board constants, clamping, the collection radius and
  the scaling of a random draw.
- `Game` (`game.dfy`): players, coins, the world, the reachable-state invariant
  `Inv`, and the total score.
- `Sessions` (`sessions.dfy`): the `create` and `close` handlers.
- `Collection` (`collection.dfy`): the coin-collection loop of `move`. It is
  written as a loop over the keys that deletes while it iterates. The loop is
  proved equal to a functional description.
- `Moves` (`moves.dfy`): the `move` handler. There are two versions, one exactly
  as written and one corrected (see Findings).
- `Spawner` (`spawner.dfy`): `spawnCoin` and `updateSpeedLimit`.
- `Broadcast` (`broadcast.dfy`): the public player view, the stable ranking and
  the leaderboard, the `gameState` snapshot and the `pastCoins` reply.
- `Server` (`server.dfy`): the whole server as a state machine. Its state is the
  world plus the open connections, each remembering the secret it is bound to. A
  trace of connection, message and timer events drives it. A server runs one of
  two `move` handlers, fixed at start: `AsWritten` is the source's handler
  (`Moves.MoveAsWritten`) and `Corrected` is `Moves.Move`. The trace-level
  lemmas hold for both, for finite numeric payloads (see Left out). They bound
  positions, the coin count and the speed limit. They also show that scores
  never go down, and that the points awarded plus the coins on the board always
  equal the coins actually placed, so no coin is scored twice.

Randomness and identifiers become parameters:

- Each `Math.random()` draw is an argument `r` with `0 <= r < 1`.
- Each `uuidv4()` is a non-empty string argument.
- `Math.cos(angle)` and `Math.sin(angle)` are a `Heading(cos, sin)` argument,
  whose components lie in `[-1, 1]` where a lemma needs that. A finite angle
  gives such a heading; an infinite one does not (see Left out).
- Positions and velocities are mathematical reals, so they are always finite.
- The `Math.sqrt(...) < 15` distance test is the equivalent test on squared
  distances, `< 225`.

## Model

| member | source | states |
|---|---|---|
| Dicts.Put | world/server.js:89 | assigning `o[k] = v` stores `v` under `k` and changes no other entry; an existing key keeps its place in the key order and a new key goes last |
| Dicts.Without | world/server.js:132 | deleting a key removes exactly that key and no other, and a key list without repeats stays without repeats |
| Dicts.WithoutSplit | world/server.js:132 | deleting a key that occurs once leaves the keys before and after it joined, in their order |
| Dicts.Values | world/server.js:146 | `Object.values` lists one value per key, in key order, and every value on record appears in the list |
| Board.Clamp | world/server.js:119-120 | the result lies in `[lo, hi]`; a value already inside is unchanged; a value below becomes `lo` and one above becomes `hi` |
| Board.RandomX | world/server.js:93 | a draw in `[0, 1)` scales to an x coordinate in `[0, 800)` |
| Board.RandomY | world/server.js:94 | a draw in `[0, 1)` scales to a y coordinate in `[0, 600)` |
| Game.Init | world/server.js:27-29 | the initial world has no players and no coins, a speed limit of 10, and satisfies the reachable-state invariant |
| Sessions.ChooseSecret | world/server.js:83 | a non-empty requested secret is used as is; a missing or empty one is replaced by the uuid; the result is never empty |
| Sessions.Create | world/server.js:82-106 | the connection is bound to the chosen secret and that player is connected. With a known secret only the connected flag changes and no record is added. With an unknown secret exactly one record is appended: score 0, connected, not over speed, at a position in `[0, 800) x [0, 600)`. Coins and the speed limit are untouched |
| Sessions.Close | world/server.js:156-166 | no record is removed and the key order is kept; exactly the player bound to the closing connection (a non-empty secret) becomes disconnected; everything else is unchanged |
| Sessions.CreatePreservesInv | world/server.js:82-106 | `create` keeps the reachable-state invariant, keeps every record, and leaves every score and the total score unchanged |
| Sessions.ClosePreservesInv | world/server.js:156-166 | `close` keeps the reachable-state invariant, every record and every score |
| Sessions.CloseThenRejoin | world/server.js:84-86 | for a player who was connected, closing and then re-creating with the same secret restores the world exactly: same position, score, name, colour and flags |
| Sessions.RejoinDoesNotDuplicate | world/server.js:84-86 | a repeated `create` with the same secret changes nothing further and adds no second record |
| Collection.CaughtMissedCount | world/server.js:129-132 | every coin is either collected or kept, so the number collected plus the number kept is the number there were |
| Collection.MissedMember | world/server.js:129-132 | a coin stays on the board exactly when it was there and fails the pickup test (for a move, it lies 15 units or more from the player) |
| Collection.Uncollected | world/server.js:124-140 | the coins left are exactly those that fail the pickup test, with their positions unchanged and in their original order; their count is the original count minus the number collected |
| Collection.CollectCoins | world/server.js:124-140 | the loop, which deletes coins while iterating over the keys, leaves exactly the coins `Uncollected` describes, and its counter equals the number of coins removed; it is stated for any pickup test, and the handler's test is `Near(x, y)`, a squared distance below 225 |
| Collection.SweepUpToSwept | world/server.js:124-140 | after visiting the first `i` keys, the loop has deleted exactly the visited coins that pass the pickup test, kept the rest in order, and counted the deletions |
| Moves.CapAsWritten | world/server.js:111 | `Math.min(velocity, 20)` is never above 20, leaves smaller velocities, negative ones included, unchanged, and turns larger ones into 20 |
| Moves.CapVelocity | world/server.js:111 | the corrected cap holds the velocity in `[0, 20]` |
| Moves.StepPlayer | world/server.js:111-121 | the over-speed flag is set exactly when the capped velocity exceeds the limit; a flagged player does not move; an unflagged player moves along the heading and is clamped to the board; nothing else about the player changes; a player on the board stays on it |
| Moves.Advance | world/server.js:110-140 | a missing or disconnected player changes nothing. Otherwise: only that player changes; a coin is removed exactly when it is within reach of the player's final position, even if the player was flagged; the score rises by exactly the number of coins removed; the speed limit and the other players are untouched |
| Moves.LookupKey | world/server.js:109 | a bound connection looks up its own secret; the key is `"undefined"` exactly when the connection is unbound or bound to the secret `"undefined"` |
| Moves.MoveAsWritten | world/server.js:108-142 | the handler as written advances the player found under `LookupKey` at the velocity `CapAsWritten` gives, so for a bound connection and a non-negative velocity it agrees with the corrected `Moves.Move`; an unbound connection changes nothing unless a player `"undefined"` is on record (`Moves.MoveAsWrittenPreservesInv` states the invariants it keeps) |
| Moves.Move | world/server.js:108-142 | the corrected handler does nothing for a connection with no secret, or for a secret that is unknown or disconnected |
| Moves.AdvancePreservesInv | world/server.js:108-142 | a move keeps the invariant, every record and every score; the total score plus the number of coins on the board is unchanged |
| Moves.MoveAsWrittenPreservesInv | world/server.js:108-142 | the handler as written also keeps the invariant, every score, and the coin/score balance |
| Moves.MovePreservesInv | world/server.js:108-142 | the corrected handler keeps the invariant, every score, and the coin/score balance |
| Moves.UnboundMoveDrivesUndefined | world/server.js:109 | as written, a move from a connection that never sent `create` moves the player whose secret is "undefined"; the corrected handler does nothing |
| Moves.NegativeVelocityOutrunsLimit | world/server.js:111-116 | as written, velocity -100 at angle pi under limit 10 is not flagged and moves the player 100 units |
| Moves.StepWithinLimit | world/server.js:111-121 | at a velocity in `[0, 20]`, a step moves a player at most 20 units along each axis; an unflagged step moves at most the speed limit |
| Moves.MoveStaysWithinLimit | world/server.js:111-121 | with the corrected cap, one move never carries a player more than 20 units along either axis; an unflagged move never more than the speed limit |
| Spawner.SpawnCoin | world/server.js:171-178 | at 10 or more coins nothing changes. Otherwise the coin with the new id lies in `[0, 800) x [0, 600)`; every other coin is unchanged; the id is appended to the key order unless already present; players and the limit are untouched |
| Spawner.SpawnPreservesInv | world/server.js:171-178 | spawning keeps the invariant, so never more than 10 coins, and keeps every score |
| Spawner.SpawnAddsAtMostOne | world/server.js:172-178 | a spawn adds at most one coin: exactly one when there is room and the id is new, and none at the cap or when the id is already in use |
| Spawner.DrawSpeedLimit | world/server.js:187 | `Math.floor(r * 10) + 5` for `r` in `[0, 1)` lies in `[5, 14]` |
| Spawner.EveryLimitDrawn | world/server.js:187 | every integer in `[5, 14]` is drawn by some `r` in `[0, 1)`, so the range is exactly `[5, 14]` |
| Spawner.UpdateSpeedLimit | world/server.js:186-187 | only the speed limit changes, to a value in `[5, 14]` |
| Spawner.UpdateSpeedLimitPreservesInv | world/server.js:186-187 | redrawing the limit keeps the invariant and every score |
| Broadcast.Connected | world/server.js:42 | the filtered list holds exactly the connected players of the input and is no longer than it |
| Broadcast.ConnectedCounts | world/server.js:42 | as a multiset, the filtered list holds each connected player as often as the input does, and no disconnected one |
| Broadcast.AllConnected | world/server.js:42 | when every player is connected the filter returns the input unchanged |
| Broadcast.ConnectedAppend | world/server.js:42 | filtering a concatenation is concatenating the filtered parts, so the filter keeps the input's order |
| Broadcast.PublicPlayers | world/server.js:42-52 | the broadcast has exactly one entry per connected record, in key order: entry `i` is the public view of the `i`-th connected secret. So it is never longer than the roster, and when everyone is connected it has one entry per player |
| Broadcast.ConnectedKeys | world/server.js:42 | the connected secrets, in key order: exactly the keys whose record is connected, and without repeats when the keys have none |
| Broadcast.ConnectedLookup | world/server.js:42 | filtering the records in key order gives the records of the connected keys, so `.filter` over `Object.values` picks each connected record once |
| Broadcast.PublicPlayersCount | world/server.js:42-52 | the number of broadcast entries equals the number of distinct connected secrets |
| Broadcast.PublicPlayersExact | world/server.js:42-52 | the broadcast lists the public fields of every connected player and of nobody else |
| Broadcast.Insert | world/server.js:61 | inserting one player adds exactly that player, as a multiset, and puts either that player or the old front first |
| Broadcast.InsertKeepsOrder | world/server.js:61 | inserting into a list ordered by non-increasing score gives an ordered list |
| Broadcast.Ranked | world/server.js:61 | the ranking is a permutation of the players, ordered by non-increasing score |
| Broadcast.RankedIsStable | world/server.js:61 | for each score, the players with that score keep their relative order, as a stable sort keeps it |
| Broadcast.Leaderboard | world/server.js:59-64 | the board has `min(10, number of players)` lines, ordered by non-increasing score |
| Broadcast.LeaderboardFromRoster | world/server.js:59-64 | every line is the name and score of a player on record, connected or not |
| Broadcast.LeaderboardIsTop | world/server.js:59-64 | every player on record, connected or not, is listed, or the board is full and that player scores no more than the tenth line |
| Broadcast.RankedHolds | world/server.js:60-62 | a player on record is on the board, or the board is full and that player scores no more than its last line |
| Broadcast.Snapshot | world/server.js:41-57 | the snapshot's players are the public projection `PublicPlayers` (one entry per connected secret, in key order), its leaderboard is `Leaderboard` (the top ten by stable score order), its coins are the `pastCoins` reply and its limit is the current one; so it has as many player entries as connected secrets, one coin entry per coin, and at most 10 leaderboard lines |
| Broadcast.PastCoins | world/server.js:146 | the reply has one entry per coin id, in key order, and every coin on the board appears in it |
| Broadcast.SnapshotWithinBounds | world/server.js:41-57 | in every reachable state the broadcast shows players and coins on the board, at most 10 coins, at most 10 leaderboard lines, and a speed limit in `[5, 14]` |
| Broadcast.PastCoinsListsBoard | world/server.js:144-148 | the `pastCoins` reply lists every coin on the board once, in spawn order, with pairwise distinct ids |
| Server.Step | world/server.js:67-193 | opening a connection adds an unbound connection; closing removes it; only `create` rebinds a connection; `getPastCoins` changes nothing; a message on a connection that is not open changes nothing; `create` binds the connection to `ChooseSecret` of the request and installs the joined world; `close` applies `Sessions.Close` to the bound secret; the timers apply `SpawnCoin` or `UpdateSpeedLimit` and leave the connections alone; a `move` on an open connection runs the server's handler, the source's `Moves.MoveAsWritten` or the corrected `Moves.Move` |
| Server.CreateKeepsLinked | world/server.js:83-100 | after `create` the connection is bound to a record on file, and every other bound connection still names one |
| Server.StepPreservesGood | world/server.js:82-193 | under either handler, the source's or the corrected one, any event keeps the invariant and the connection/record link. No record disappears, no score goes down, and the total score plus the coins on the board rises by exactly the coins the event places: one for a spawn with room and a new id, none otherwise |
| Server.RunPreservesGood | world/server.js:82-193 | under either handler, along any trace: the invariant holds, no record disappears, no score goes down, and points awarded plus coins left equal the starting amount plus the coins actually placed; a spawn tick at the cap or with an id in use places none |
| Server.ScoreBoundedBySpawns | world/server.js:124-178 | under either handler, from a fresh start, the total score plus the coins on the board equals the number of coins placed, so every placed coin is scored at most once and the total score never exceeds the coins placed |
| Server.RepeatedIdPlacesOnce | world/server.js:172-178 | from a fresh start, two spawn ticks with the same id place one coin, not two, so they raise the score/coin balance by one |

## Left out

- HTTP and static files (lines 1-19), WebSocket delivery, `broadcast` and JSON encoding are not modelled. The broadcast and reply contents are modelled as values.
- Notifications are not modelled, because they do not change state.
- The `serverInfo` greeting, the logging, `getLocalIp`, `listen` and the command-line banner are not modelled.
- The intervals at lines 208-210 are not modelled as timing. Timer firings are events of `Server.Step` in any order and number.
- Message parsing and the `try`/`catch` are not modelled. A malformed message does nothing in the source and has no event in the model.
- `Math.random`, `uuidv4`, `Math.cos` and `Math.sin` become parameters.
- Floating-point rounding is not modelled; positions are reals.
- Moves.MoveAsWritten: the on-board invariant and the trace lemmas are proved only for finite numeric `angle` and `velocity`; the same holds for `Moves.Move`. In the source, a missing `velocity` or `angle` gives a `NaN` position. So does a number literal too large for a double, which `JSON.parse` turns into `Infinity` or `-Infinity`: `Math.cos(Infinity)` is `NaN` (line 115), and velocity `-1e999` at angle 0 passes the limit check (lines 111-112) and makes `0 * -Infinity`, which is `NaN` (line 116). The clamp at lines 119-120 passes `NaN` through, so that player leaves the board for good and can never collect a coin again (line 129). Reals have no infinities or `NaN`, so the model cannot express these payloads.
- Sessions.Create: `secret`, `name` and `color` are taken to be strings. In the source a missing `name` or `color` is stored as `undefined` (lines 90-91). A numeric `secret` such as `42` files the record under the key `"42"` but stores the number in its `secret` field. A falsy non-string `secret` such as `0` or `false` falls back to the uuid (line 83). None of these is modelled.
- Sessions.Create: `uuidv4()` is taken as given and may collide with an existing secret. The model then reconnects, as the source would; freshness is not assumed.
- Spawner.SpawnCoin: a colliding uuid overwrites the existing coin in place, as the source would. Freshness is not assumed.
- Dicts.Values: JavaScript lists integer-like keys (such as `"42"`) before the others. The model keeps pure insertion order. Such secrets would change only the order of the broadcast and of leaderboard ties.
- Keys inherited from `Object.prototype` are not modelled. A secret such as `"constructor"` finds an inherited value in the source.
- The `player/*` clients and `main.js` are not part of this model.

## Findings

| source | as written | input that shows it | evidently intended | confidence | as-written member | corrected member |
|---|---|---|---|---|---|---|
| world/server.js:109 | `players[ws.playerSecret]` on a connection that never sent `create` reads the key `"undefined"` | a player joins with secret `"undefined"`; another connection, never bound, sends `move` with velocity 5 at angle 0; that player moves from x = 400 to x = 405 | a connection with no player moves nothing | not executed; high | Moves.UnboundMoveDrivesUndefined | Moves.Move |
| world/server.js:111-112 | `Math.min(data.velocity, 20)` caps only from above, so a negative velocity is never over the limit | velocity -100 at angle pi under limit 10: not flagged, and the player moves from x = 400 to x = 500 | velocity held in `[0, 20]`, so no unflagged move exceeds the limit | not executed; medium | Moves.NegativeVelocityOutrunsLimit | Moves.MoveStaysWithinLimit |
