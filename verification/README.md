# Online chess session engine: a Dafny model

This project models the server side of an online chess app. Two players
share a game through stateless HTTP requests and poll for changes. The
model covers:

- the versioned in-memory game store (`InMemoryGameStore`);
- the in-memory seat store (`InMemorySeatStore`);
- the `ChessService` wrapper, which counts plies in `version` and derives the game status from the rules engine;
- `GameService`, which applies a move under optimistic concurrency: read, compare the version, apply, save;
- the request handlers: payload validation (`MoveSchema`), id generation, the weak entity tag `W/"v-N"` with its 304 rule, first-come seat binding, the wrong-seat gate, and the mapping of a move's before/after versions to 200 / 400 / 404 / 409.

The chess rules engine (chess.js) is not modelled. It is a parameter of
type `Engine.Rules`, a record of functions for the engine's operations: the
start position, `move` (the next position, null, or an exception), `turn`,
and the game-over, checkmate, stalemate, draw and check predicates. A
position is identified with its FEN text. Two assumptions about the engine
are named predicates, and only the lemmas that need them require them:

- `FlipsTurn`: an accepted move hands the turn to the other side;
- `StartsWithWhite`: White moves first from the start position.

Each call to a handler is one atomic step. The methods of the classes
mirror the source step by step. Each state-changing method is tied by its
`ensures` to a pure function of the old state: `Put`, `Assign`, `ApplyMove`
and `MoveOutcome`. The properties are then proved as lemmas about those
functions.

Files and modules:

- `wrappers.dfy` (`Wrappers`): `Option`.
- `engine.dfy` (`Engine`): the rules-engine interface.
- `chess_service.dfy` (`ChessLib`): web/src/lib/ChessService.ts.
- `game_store.dfy` (`GameStore`): web/src/server/GameStore.ts.
- `seat_store.dfy` (`SeatStore`): web/src/server/SeatStore.ts.
- `game_service.dfy` (`Service`): web/src/server/GameService.ts.
- `decimal.dfy` (`Decimal`): how a template literal writes a whole number.
- `handlers.dfy` (`Handlers`): web/src/server/api/handlers.ts.

The code behaves as follows, and the model follows it:

- The entity tag depends on the version alone. Seat bindings do not change it.
- `InMemoryGameStore.createGame` overwrites an existing record. It is not idempotent.
- Seats are bound only by a move request, never by a read. There are no observers.
- No move log is stored. The version counts the accepted plies; `Service.ReplayCountsPlies` proves it.
- The seat gate is checked before the version. A stale move from the wrong seat gets 400 wrong_seat, not 409.

## Model

| member | source | states |
|---|---|---|
| `ChessLib.StatusOf` | web/src/lib/ChessService.ts:42-50 | when the game is over the status is checkmate, then stalemate, then draw, and draw also when the engine gives no specific reason; otherwise check or playing; each value holds exactly under its conditions |
| `ChessLib.IsDrawIrrelevant` | web/src/lib/ChessService.ts:46-47 | the engine's `isDraw` never changes the status, because draw is also the fallback |
| `ChessLib.InitialState` | web/src/lib/ChessService.ts:14-17 | a new service is at the start position, version 0, with turn and status derived from the engine |
| `ChessLib.ChessService.constructor` | web/src/lib/ChessService.ts:14-17 | the position is the given FEN, or the start position when none is given; the version is the given one, 0 by default |
| `ChessLib.ChessService.FromState` | web/src/lib/ChessService.ts:19-21 | the rebuilt service reports the snapshot's FEN and version; for a consistent snapshot, `getState` gives the snapshot back unchanged |
| `ChessLib.StateOf` | web/src/lib/ChessService.ts:23-30 | the reported state is at the given position and version, with turn and status consistent with the engine |
| `ChessLib.ChessService.GetState` | web/src/lib/ChessService.ts:23-30 | the state reports the current position and version, and its turn and status are consistent with the engine |
| `ChessLib.ChessService.MakeMove` | web/src/lib/ChessService.ts:32-40 | returns true exactly when the engine returns a move; then the position advances and the version goes up by exactly one; on null or an exception nothing changes |
| `ChessLib.OpeningMove` | web/src/lib/ChessService.test.ts:4-14 | a new service is at White's turn and version 0; a move the engine accepts takes it to Black's turn and version 1; a refused move changes nothing |
| `GameStore.Stamp` | web/src/server/GameStore.ts:28 | the stored record carries the argument id and timestamp, and exactly the given state, version included |
| `GameStore.Lookup` | web/src/server/GameStore.ts:23-25 | the lookup returns the record exactly when the id is present, and null otherwise |
| `GameStore.Put` | web/src/server/GameStore.ts:27-31 | after a write, a read of the id gives the stamped record whatever was there before; every other id keeps its record |
| `GameStore.PutKeepsWellKeyed` | web/src/server/GameStore.ts:17-21 | a write keeps every record filed under its own id |
| `GameStore.InMemoryGameStore.constructor` | web/src/server/GameStore.ts:15 | a new store has no games, so every lookup is null |
| `GameStore.InMemoryGameStore.CreateGame` | web/src/server/GameStore.ts:17-21 | stores the stamped initial state under the id and replaces any existing record |
| `GameStore.InMemoryGameStore.GetGame` | web/src/server/GameStore.ts:23-25 | returns the stored record for the id, or null; a record returned is filed under that id |
| `GameStore.InMemoryGameStore.SaveGame` | web/src/server/GameStore.ts:27-31 | overwrites the entry for the id with the stamped state and leaves the others alone |
| `SeatStore.Seats.With` | web/src/server/SeatStore.ts:15 | setting a colour's seat gives it the token and keeps the other colour's seat |
| `SeatStore.SeatsOf` | web/src/server/SeatStore.ts:10-12 | a game never written has neither seat bound |
| `SeatStore.Assign` | web/src/server/SeatStore.ts:13-17 | after a seat is set, that seat holds the token even if it was bound before; the other colour and every other game keep their seats |
| `SeatStore.AssignIdempotent` | web/src/server/SeatStore.ts:13-17 | setting the same seat twice gives the same table as setting it once |
| `SeatStore.InMemorySeatStore.constructor` | web/src/server/SeatStore.ts:9 | a new seat store is empty |
| `SeatStore.InMemorySeatStore.GetSeats` | web/src/server/SeatStore.ts:10-12 | returns the game's seats, and empty seats for a game never written |
| `SeatStore.InMemorySeatStore.SetSeat` | web/src/server/SeatStore.ts:13-17 | changes the table exactly as `Assign` says |
| `Service.ApplyMove` | web/src/server/GameService.ts:16-25 | unknown id gives null and no write; the version rises by one exactly when it matched and the engine accepted the move, and otherwise nothing is written and the current record comes back; an accepted move saves and returns a consistent record at the engine's next position; only the entry for the id can change |
| `Service.CreateKeepsConsistent` | web/src/server/GameService.ts:7-10 | storing a new game's start state keeps every record's turn and status consistent with the engine |
| `Service.ApplyMoveKeepsConsistent` | web/src/server/GameService.ts:16-25 | a move keeps every record's turn and status consistent with the engine, as every saved state comes from `getState` |
| `Service.TurnAlternates` | web/src/server/GameService.ts:20-24 | under `FlipsTurn`, an accepted move flips the stored side to move |
| `Service.ReplayCountsPlies` | web/src/server/GameService.test.ts:20-30 | moves sent one after another with the current version raise the version by the number of accepted plies, with no gaps, and reach the engine's position; other games stay the same |
| `Service.VersionCountsPliesSinceCreate` | web/src/server/GameService.ts:7-25 | for a freshly created game, the version after any sequence of such moves equals the number of accepted plies |
| `Service.GameService.constructor` | web/src/server/GameService.ts:5 | the service works on the given store |
| `Service.GameService.Create` | web/src/server/GameService.ts:7-10 | stores and returns the start position at version 0 under the id, replacing any record there |
| `Service.GameService.Get` | web/src/server/GameService.ts:12-14 | returns the stored record or null |
| `Service.GameService.MakeMove` | web/src/server/GameService.ts:16-25 | the result and the new store contents are exactly those given by `ApplyMove` |
| `Decimal.NatToString` | web/src/server/api/handlers.ts:48 | the decimal text of a version is non-empty, made of digits only, and starts with 0 only for zero itself, so it has no leading zero |
| `Decimal.ParseNatToString` | web/src/server/api/handlers.ts:48 | reading the decimal text back gives the number |
| `Decimal.NatToStringInjective` | web/src/server/api/handlers.ts:48 | two numbers have the same text exactly when they are equal |
| `Handlers.PromotionFromName` | web/src/server/api/handlers.ts:15 | only q, r, b and n name a promotion piece, and each names its own |
| `Handlers.VersionField` | web/src/server/api/handlers.ts:16 | an accepted `expectedVersion` is present and is a non-negative whole number |
| `Handlers.ParseMove` | web/src/server/api/handlers.ts:12-18 | an accepted payload has `from` and `to` of exactly two characters and a token of at least eight |
| `Handlers.PromotionField` | web/src/server/api/handlers.ts:15 | the promotion field is accepted exactly when it is absent or one of q, r, b and n; absent means no promotion, and an accepted piece is the one the field names |
| `Handlers.ParseToBody` | web/src/server/api/handlers.ts:12-18 | every well-formed command is accepted and parsed back to itself from any object that carries its wire form on the schema's keys, whatever other properties the object has |
| `Handlers.ExtraPropertyIgnored` | web/src/server/api/handlers.ts:12-18 | a command's wire form with one extra property (such as the client's display name) still parses to the command |
| `Handlers.ParsedBodyIsWireForm` | web/src/server/api/handlers.ts:12-18 | an accepted body matches its command's wire form on every key the schema reads |
| `Handlers.AlphabetIsAlphanumeric` | web/src/server/api/handlers.ts:21 | the id alphabet has 62 characters, all ASCII letters or digits |
| `Handlers.Pick` | web/src/server/api/handlers.ts:23 | a random number in [0, 1), scaled and floored, is always an index into the alphabet |
| `Handlers.IdFromDraws` | web/src/server/api/handlers.ts:20-25 | the id has one character per draw, each from the alphabet |
| `Handlers.GenerateId` | web/src/server/api/handlers.ts:20-25 | the loop builds exactly the id the draws determine, of the requested length and alphanumeric |
| `Handlers.MakeEtag` | web/src/server/api/handlers.ts:47-49 | the tag starts with `W/"v-` and ends with a double quote |
| `Handlers.EtagRoundTrip` | web/src/server/api/handlers.ts:47-49 | the version can be read back from its tag |
| `Handlers.EtagInjective` | web/src/server/api/handlers.ts:47-49 | two tags are equal exactly when the versions are |
| `Handlers.GetOutcome` | web/src/server/api/handlers.ts:58-67 | unknown id gives 404; 304 exactly when `If-None-Match` equals the current tag; otherwise 200 with the record and the tag of its version; the status code is 200 exactly in that last case |
| `Handlers.NotModifiedIffSameVersion` | web/src/server/api/handlers.ts:62-65 | a read conditioned on the tag of version v gets 304 exactly when the game is at version v |
| `Handlers.RepeatedReadNotModified` | web/src/server/api/handlers.test.ts:15-25 | polling again with the tag of the previous 200 gets 304 while nothing has been written |
| `Handlers.HandleGet` | web/src/server/api/handlers.ts:58-67 | the response is the one `GetOutcome` gives for the current store |
| `Handlers.HandleCreate` | web/src/server/api/handlers.ts:51-56 | answers with status 201, an 8-character id from the draws and a record at version 0 under that id, which is stored |
| `Handlers.BindSeats` | web/src/server/api/handlers.ts:80-82 | an unbound white seat goes to the requester; otherwise an unbound black seat goes to a requester who is not white; a bound seat is never rebound; at most one seat changes; the requester ends up seated unless both seats were already bound; a requester who already holds white changes nothing |
| `Handlers.BindSeatsKeepsDistinct` | web/src/server/api/handlers.ts:81-82 | binding keeps black bound only after white, and to a different token |
| `Handlers.Classify` | web/src/server/api/handlers.ts:91-97 | every before/after pair gets exactly one of 200, 400, 404 and 409: 404 exactly when there is no record, 200 exactly when the version rose by one, 400 exactly when it stayed at the expected version; 400 is illegal_move with the earlier record, 200 carries the later record, 409 carries the earlier record when the version did not move and the later one otherwise |
| `Handlers.SeatForbids` | web/src/server/api/handlers.ts:84-85 | a move is refused exactly when the seat of the side to move is bound to another token |
| `Handlers.GateAfterBinding` | web/src/server/api/handlers.ts:80-85 | after binding, a requester is refused exactly when the seat of the side to move was already held by another token before the request |
| `Handlers.MoveOutcome` | web/src/server/api/handlers.ts:69-98 | every request ends in 200, 400, 404 or 409; 404 exactly for a valid payload on an unknown game; invalid payload exactly when the body fails the schema; only a 200 changes the game table, exactly as the game service's move does: the requested game moves one ply to the engine's next position, with turn and status consistent with the engine, and the new record is returned; a wrong-seat refusal returns the stored record; other games and their seats are untouched; for a valid payload on a stored game the game's seats become the first-come binding of the requester, otherwise the seat table is unchanged |
| `Handlers.HandleMove` | web/src/server/api/handlers.ts:69-98 | the response and the new game and seat tables are exactly those given by `MoveOutcome` |
| `Handlers.InvalidPayloadChangesNothing` | web/src/server/api/handlers.ts:70-71 | a rejected payload gets 400 invalid_payload whatever the stores hold, and nothing is written |
| `Handlers.UnknownGameChangesNothing` | web/src/server/api/handlers.ts:74-75 | a move on an unknown game gets 404 and binds no seat |
| `Handlers.SeatsNeverRebound` | web/src/server/api/handlers.ts:78-82 | after any move request, every bound seat keeps its token and other games' seats are unchanged |
| `Handlers.SeatsStayDistinct` | web/src/server/api/handlers.ts:81-82 | no token ever holds both seats of a game |
| `Handlers.WrongSeatNeverMoves` | web/src/server/api/handlers.ts:84-87 | when the seat for the side to move is bound to another token, the response is 400 wrong_seat and the game is untouched |
| `Handlers.ThirdTokenRefused` | web/src/server/api/handlers.ts:81-87 | once both seats are bound, any other token is refused and nothing at all changes |
| `Handlers.AuthorisedMoveOutcome` | web/src/server/api/handlers.ts:89-97 | for an authorised request: 200 exactly when the version matches and the engine accepts; 409 with the current record exactly when the version is stale; 400 illegal_move exactly when the engine refuses at the right version; the final "409 with the later record" branch never happens; the store changes only on 200 |
| `Handlers.VersionAdvancesOnlyWhenApplied` | web/src/server/api/handlers.ts:89-97 | for any request, the game's version rises by one on 200 and stays the same otherwise; no other game changes |
| `Handlers.TwoPlayersThenThirdRefused` | web/src/server/api/handlers.ts:80-87 | starting with no seats, the first two distinct tokens take white and black whatever their moves' outcomes, and a third token is then refused with nothing changed |
| `Handlers.MoveOutcomeKeepsConsistent` | web/src/server/api/handlers.ts:89-90 | every move request keeps all stored records consistent with the engine |
| `Handlers.AppliedMoveHandsOverTurn` | web/src/server/api/handlers.ts:89-96 | under `FlipsTurn`, a 200 changes the stored side to move |
| `Handlers.AppliedMoveInvalidatesEtag` | web/src/server/api/handlers.ts:62-66 | after a 200, a read conditioned on the previous tag gets the full state, not 304 |
| `Handlers.MoveOutcomeWithFreshSeats` | web/src/server/api/handlers.ts:34-39 | with an empty seat store, a valid move on an existing game is classified straight from the service's answer, with no seat check taking effect; an invalid payload gives 400 and an unknown game 404 |
| `Handlers.FreshSeatStoreNeverRefuses` | web/src/server/api/handlers.ts:34-39 | with the seat store created afresh for each request, no move is ever refused as wrong_seat |

## Left out

- `RedisGameStore` and `RedisSeatStore` with `upstashPath`: HTTP calls to a remote key-value service, with JSON and URL encoding. Unlike the in-memory store, the remote `createGame` returns an existing record instead of overwriting it. That backend is not part of this model.
- chess.js: move legality, FEN parsing and generation, and mate and draw detection are not modelled. `Rules` holds them as functions. The engine's refusal of out-of-turn moves is part of `move`, so the model covers only its effect: no ply is counted and nothing is written. `new Chess(fen)` throwing on a malformed FEN is not modelled. Every stored FEN comes from the engine.
- The `Move` object that `chess.move` returns (its SAN and flags): `ChessService.MakeMove` returns only whether there was one.
- Concurrency: the read-then-write windows in `GameService.makeMove` and in seat binding are races between interleaved `await`s. Every call here is atomic, so the model says nothing about lost updates. This is also why the "409 with the later record" branch is unreachable in the model.
- `Date.now()`: the timestamp is the parameter `now`. `Service.Replay` uses one timestamp for every move.
- `Math.random()`: the draws are a parameter, real numbers in [0, 1). Floating-point rounding of `x * 62` is not modelled.
- `resolveGameStore`, `resolveSeatStore` and `makeServices`, which pick a backend from the environment: handlers take the game store and the seat store as parameters. `Handlers.MoveOutcomeWithFreshSeats` models only the consequence of a fresh in-memory seat store per request (see Findings).
- zod: `MoveSchema` is a function on a small JSON model. Strings, numbers and every other kind of value are told apart, and nothing more. String length counts Unicode scalar values, not UTF-16 code units. Extra properties are ignored, as zod strips them.
- `ChessLib.StatusOf` and `ChessLib.ChessService`: game over and draw are functions of the FEN alone. chess.js detects threefold repetition from the move history of a live instance, so a `ChessService` that plays several moves could report a draw that the model does not. `GameService` builds a new instance from the stored FEN on every move, so the served state loses that history in the source too.
- Versions are `nat`. JavaScript numbers are floating point, but a stored version only ever starts at 0 and is incremented.
- `Handlers.BindSeats`, `Handlers.SeatForbids`, `Handlers.SeatsNeverRebound` and `Handlers.SeatsStayDistinct`: the handler tests seats with JavaScript truthiness, so a seat holding the empty string counts as unbound. The model treats any stored token, the empty string included, as bound. No request can store an empty token, because the schema demands at least 8 characters.
- Aliasing: `getSeats` returns the stored seats object, so the handler's own write `seats.w = playerToken` touches the stored object again. The model works on values, where that second write has no further effect.
- UI, routing (the Next.js route files) and the client's polling loop are not part of this model.

## Findings

| source | as written | input that shows it | evidently intended | confidence | as-written member | corrected member |
|---|---|---|---|---|---|---|
| web/src/server/api/handlers.ts:34-39 | without the remote backend, `resolveSeatStore` returns a new empty `InMemorySeatStore` on every request, so seats bound by one move are forgotten by the next | two tokens move; then a third token sends a legal move at the right version: each request starts with no seats, binds its sender to white and passes the gate | seats persist between requests, as the shared in-memory game store does, so the third token is refused | medium, not executed | `Handlers.FreshSeatStoreNeverRefuses` | `Handlers.TwoPlayersThenThirdRefused` |
