/**
 * web/src/server/api/handlers.ts: the request handlers behind the HTTP
 * routes. Payload validation, id generation, the weak entity tag and
 * conditional read, first-come seat binding, the seat gate, and the mapping
 * of a move's before/after versions to a response status.
 *
 * Each handler call is one atomic step; the seat store is passed in
 * explicitly.
 */
module Handlers {
  import opened Wrappers
  import opened Engine
  import opened ChessLib
  import opened GameStore
  import opened SeatStore
  import opened Service
  import opened Decimal

  // ---------------------------------------------------------------------
  // Move payload (`MoveSchema`)
  // ---------------------------------------------------------------------

  /** A JSON value as far as the schema tells values apart. */
  datatype Json = JString(str: string) | JNumber(num: real) | JOther

  /** A request body: an object's properties, or anything that is not an object. */
  datatype Body = JsonObject(fields: map<string, Json>) | NotAnObject

  /** The payload once the schema has accepted it. */
  datatype MoveCommand = MoveCommand(from: string, to: string, promotion: Option<Promotion>,
                                     expectedVersion: nat, playerToken: string) {
    function Move(): MoveRequest {
      MoveRequest(from, to, promotion)
    }
  }

  /** The keys the schema looks at; any other property is ignored. */
  const SchemaKeys: set<string> := {"from", "to", "promotion", "expectedVersion", "playerToken"}

  function PromotionName(p: Promotion): string {
    match p
    case Queen => "q"
    case Rook => "r"
    case Bishop => "b"
    case Knight => "n"
  }

  /** `z.enum(["q", "r", "b", "n"])`. */
  function PromotionFromName(s: string): (p: Option<Promotion>)
    ensures p.Some? ==> PromotionName(p.value) == s
    ensures p.None? ==> s !in {"q", "r", "b", "n"}
  {
    if s == "q" then Some(Queen)
    else if s == "r" then Some(Rook)
    else if s == "b" then Some(Bishop)
    else if s == "n" then Some(Knight)
    else None
  }

  /** A string property, if the key is present with a string value. */
  function TextField(fields: map<string, Json>, key: string): Option<string> {
    if key in fields && fields[key].JString? then Some(fields[key].str) else None
  }

  /** `z.number().int().nonnegative()`. */
  function VersionField(fields: map<string, Json>): (v: Option<nat>)
    ensures v.Some? ==> "expectedVersion" in fields && fields["expectedVersion"] == JNumber(v.value as real)
  {
    if "expectedVersion" in fields && fields["expectedVersion"].JNumber?
       && fields["expectedVersion"].num >= 0.0
       && fields["expectedVersion"].num == fields["expectedVersion"].num.Floor as real
    then Some(fields["expectedVersion"].num.Floor as nat)
    else None
  }

  /** `.optional()`: absent is accepted; present must be one of the four names. Outer `None` means rejected. */
  function PromotionField(fields: map<string, Json>): (p: Option<Option<Promotion>>)
    ensures p == Some(None) <==> "promotion" !in fields
    ensures p.Some? <==> "promotion" !in fields || fields["promotion"] in {JString("q"), JString("r"), JString("b"), JString("n")}
    ensures p.Some? && p.value.Some? ==> fields["promotion"] == JString(PromotionName(p.value.value))
  {
    if "promotion" !in fields then Some(None)
    else if fields["promotion"].JString? && PromotionFromName(fields["promotion"].str).Some?
    then Some(PromotionFromName(fields["promotion"].str))
    else None
  }

  /**
   * `MoveSchema.safeParse(body)`: `from` and `to` of exactly two characters,
   * an optional promotion among q/r/b/n, a non-negative whole
   * `expectedVersion` and a `playerToken` of at least eight characters.
   */
  function ParseMove(body: Body): (r: Option<MoveCommand>)
    ensures r.Some? ==> |r.value.from| == 2 && |r.value.to| == 2 && |r.value.playerToken| >= 8
  {
    if body.NotAnObject? then None
    else
      var fields := body.fields;
      var from := TextField(fields, "from");
      var to := TextField(fields, "to");
      var promotion := PromotionField(fields);
      var version := VersionField(fields);
      var token := TextField(fields, "playerToken");
      if && from.Some? && |from.value| == 2
         && to.Some? && |to.value| == 2
         && promotion.Some?
         && version.Some?
         && token.Some? && |token.value| >= 8
      then Some(MoveCommand(from.value, to.value, promotion.value, version.value, token.value))
      else None
  }

  /** The shape a command takes on the wire: the body a client sends for it. */
  function ToBody(cmd: MoveCommand): Body {
    var required := map["from" := JString(cmd.from), "to" := JString(cmd.to),
                        "expectedVersion" := JNumber(cmd.expectedVersion as real),
                        "playerToken" := JString(cmd.playerToken)];
    JsonObject(if cmd.promotion.Some? then required["promotion" := JString(PromotionName(cmd.promotion.value))] else required)
  }

  /** A command the schema admits. */
  predicate WellFormed(cmd: MoveCommand) {
    |cmd.from| == 2 && |cmd.to| == 2 && |cmd.playerToken| >= 8
  }

  /** An object that carries the wire form of `cmd` on every schema key; other properties are arbitrary. */
  ghost predicate CarriesCommand(fields: map<string, Json>, cmd: MoveCommand) {
    forall k :: k in SchemaKeys ==>
      (k in fields <==> k in ToBody(cmd).fields) && (k in fields ==> fields[k] == ToBody(cmd).fields[k])
  }

  /**
   * Every well-formed command is accepted and parsed back to itself from any
   * object that carries it, whatever extra properties (a display name, say)
   * the object also has.
   */
  lemma ParseToBody(cmd: MoveCommand, fields: map<string, Json>)
    requires WellFormed(cmd)
    requires CarriesCommand(fields, cmd)
    ensures ParseMove(JsonObject(fields)) == Some(cmd)
  {
    var wire := ToBody(cmd).fields;
    assert "from" in SchemaKeys && "to" in SchemaKeys && "playerToken" in SchemaKeys;
    assert "expectedVersion" in SchemaKeys && "promotion" in SchemaKeys;
    assert TextField(fields, "from") == Some(cmd.from);
    assert TextField(fields, "to") == Some(cmd.to);
    assert TextField(fields, "playerToken") == Some(cmd.playerToken);
    assert VersionField(fields) == Some(cmd.expectedVersion);
    if cmd.promotion.Some? {
      assert fields["promotion"] == JString(PromotionName(cmd.promotion.value));
      match cmd.promotion.value
      case Queen => assert PromotionField(fields) == Some(cmd.promotion);
      case Rook => assert PromotionField(fields) == Some(cmd.promotion);
      case Bishop => assert PromotionField(fields) == Some(cmd.promotion);
      case Knight => assert PromotionField(fields) == Some(cmd.promotion);
    } else {
      assert "promotion" !in wire;
      assert PromotionField(fields) == Some(None);
    }
  }

  /** The client's payload, which adds a display name to the command, is accepted as the command itself. */
  lemma ExtraPropertyIgnored(cmd: MoveCommand, key: string, value: Json)
    requires WellFormed(cmd) && key !in SchemaKeys
    ensures ParseMove(JsonObject(ToBody(cmd).fields[key := value])) == Some(cmd)
  {
    ParseToBody(cmd, ToBody(cmd).fields[key := value]);
  }

  /**
   * Conversely, an accepted body agrees with the wire form of its command on
   * every key the schema reads: the parse loses nothing but extra properties.
   */
  lemma ParsedBodyIsWireForm(body: Body)
    requires ParseMove(body).Some?
    ensures WellFormed(ParseMove(body).value)
    ensures CarriesCommand(body.fields, ParseMove(body).value)
  {
    var cmd := ParseMove(body).value;
    var fields := body.fields;
    if "promotion" in fields {
      assert PromotionFromName(fields["promotion"].str) == cmd.promotion;
    }
  }

  // ---------------------------------------------------------------------
  // Game ids (`generateId`)
  // ---------------------------------------------------------------------

  const Alphabet: string := "ABCDEFGHIJKLMNOPQRSTUVWXYZabcdefghijklmnopqrstuvwxyz0123456789"

  predicate IsAlphanumeric(c: char) {
    'A' <= c <= 'Z' || 'a' <= c <= 'z' || '0' <= c <= '9'
  }

  lemma UpperCaseRun(upper: string)
    requires upper == "ABCDEFGHIJKLMNOPQRSTUVWXYZ"
    ensures forall k :: 0 <= k < |upper| ==> 'A' <= upper[k] <= 'Z'
  {
    assert forall k :: 0 <= k < |upper| ==> upper[k] == ('A' as int + k) as char;
  }

  lemma LowerCaseRun(lower: string)
    requires lower == "abcdefghijklmnopqrstuvwxyz"
    ensures forall k :: 0 <= k < |lower| ==> 'a' <= lower[k] <= 'z'
  {
    assert forall k :: 0 <= k < |lower| ==> lower[k] == ('a' as int + k) as char;
  }

  lemma DigitRun(digits: string)
    requires digits == "0123456789"
    ensures forall k :: 0 <= k < |digits| ==> '0' <= digits[k] <= '9'
  {
    assert forall k :: 0 <= k < |digits| ==> digits[k] == ('0' as int + k) as char;
  }

  /** The id alphabet has 62 characters, all ASCII letters or digits. */
  lemma AlphabetIsAlphanumeric()
    ensures |Alphabet| == 62
    ensures forall k :: 0 <= k < |Alphabet| ==> IsAlphanumeric(Alphabet[k])
  {
    var upper, lower, digits := "ABCDEFGHIJKLMNOPQRSTUVWXYZ", "abcdefghijklmnopqrstuvwxyz", "0123456789";
    assert Alphabet == upper + lower + digits;
    UpperCaseRun(upper);
    LowerCaseRun(lower);
    DigitRun(digits);
  }

  /** Values `Math.random()` can return. */
  predicate RandomDraws(draws: seq<real>) {
    forall k :: 0 <= k < |draws| ==> 0.0 <= draws[k] < 1.0
  }

  /** `Math.floor(x * alphabet.length)`: always an index into the alphabet. */
  function Pick(x: real): (i: nat)
    requires 0.0 <= x < 1.0
    ensures i < |Alphabet|
  {
    (x * (|Alphabet| as real)).Floor
  }

  /** The id that a given series of random draws produces, one character per draw. */
  function IdFromDraws(draws: seq<real>): (id: string)
    requires RandomDraws(draws)
    ensures |id| == |draws|
    ensures forall k :: 0 <= k < |id| ==> id[k] in Alphabet
  {
    seq(|draws|, k requires 0 <= k < |draws| => Alphabet[Pick(draws[k])])
  }

  /** `generateId(length)`: one alphabet character per random draw. */
  method GenerateId(draws: seq<real>, length: nat := 8) returns (id: string)
    requires |draws| == length && RandomDraws(draws)
    ensures id == IdFromDraws(draws)
    ensures |id| == length && forall k :: 0 <= k < |id| ==> IsAlphanumeric(id[k])
  {
    AlphabetIsAlphanumeric();
    id := "";
    for i := 0 to length
      invariant |id| == i
      invariant forall k :: 0 <= k < i ==> id[k] == Alphabet[Pick(draws[k])]
    {
      id := id + [Alphabet[Pick(draws[i])]];
    }
  }

  // ---------------------------------------------------------------------
  // Entity tag and conditional read (`makeEtag`, `handleGet`)
  // ---------------------------------------------------------------------

  const EtagPrefix: string := "W/\"v-"

  /** `W/"v-<version>"`: a weak tag that depends on the version alone. */
  function MakeEtag(version: nat): (tag: string)
    ensures |tag| > |EtagPrefix| + 1
    ensures tag[..|EtagPrefix|] == EtagPrefix && tag[|tag| - 1] == '"'
  {
    EtagPrefix + NatToString(version) + "\""
  }

  /** Reads the version back out of a tag of the form `W/"v-<digits>"`. */
  function EtagVersion(tag: string): Option<nat> {
    if |tag| >= |EtagPrefix| + 2 && tag[..|EtagPrefix|] == EtagPrefix && tag[|tag| - 1] == '"'
       && forall k :: |EtagPrefix| <= k < |tag| - 1 ==> IsDigit(tag[k])
    then Some(ParseNat(tag[|EtagPrefix|..|tag| - 1]))
    else None
  }

  lemma EtagRoundTrip(version: nat)
    ensures EtagVersion(MakeEtag(version)) == Some(version)
  {
    var tag := MakeEtag(version);
    assert tag[|EtagPrefix|..|tag| - 1] == NatToString(version);
    ParseNatToString(version);
  }

  /** Two tags are equal exactly when the versions are. */
  lemma EtagInjective(v1: nat, v2: nat)
    ensures MakeEtag(v1) == MakeEtag(v2) <==> v1 == v2
  {
    if MakeEtag(v1) == MakeEtag(v2) {
      EtagRoundTrip(v1);
      EtagRoundTrip(v2);
    }
  }

  /** The response of `handleGet`: 200 with body and tag, 304, or 404. */
  datatype GetResult = Current(gameId: string, game: StoredGame, etag: string) | NotModified | NoSuchGame {
    function Code(): int {
      match this
      case Current(_, _, _) => 200
      case NotModified => 304
      case NoSuchGame => 404
    }
  }

  /** What `handleGet` answers for the stored games, an id and an optional `If-None-Match` value. */
  function GetOutcome(games: map<string, StoredGame>, gameId: string, ifNoneMatch: Option<string>): (r: GetResult)
    ensures r.NoSuchGame? <==> gameId !in games
    ensures r.NotModified? <==> gameId in games && ifNoneMatch == Some(MakeEtag(games[gameId].version))
    ensures r.Code() == 200 <==> gameId in games && ifNoneMatch != Some(MakeEtag(games[gameId].version))
    ensures r.Current? ==> r.gameId == gameId && r.game == games[gameId] && r.etag == MakeEtag(games[gameId].version)
  {
    match Lookup(games, gameId)
    case None => NoSuchGame
    case Some(current) =>
      var etag := MakeEtag(current.version);
      if ifNoneMatch.Some? && ifNoneMatch.value != "" && ifNoneMatch.value == etag then NotModified
      else Current(gameId, current, etag)
  }

  /** A conditional read with the tag of version `v` is answered 304 exactly when the game is at version `v`. */
  lemma NotModifiedIffSameVersion(games: map<string, StoredGame>, gameId: string, v: nat)
    requires gameId in games
    ensures GetOutcome(games, gameId, Some(MakeEtag(v))) == NotModified <==> games[gameId].version == v
  {
    EtagInjective(v, games[gameId].version);
  }

  /** Polling again with the tag of the previous 200 gets 304 while nothing has been written. */
  lemma RepeatedReadNotModified(games: map<string, StoredGame>, gameId: string, ifNoneMatch: Option<string>)
    requires GetOutcome(games, gameId, ifNoneMatch).Current?
    ensures GetOutcome(games, gameId, Some(GetOutcome(games, gameId, ifNoneMatch).etag)) == NotModified
  {
  }

  method HandleGet(store: InMemoryGameStore, rules: Rules, gameId: string, ifNoneMatch: Option<string>) returns (res: GetResult)
    requires store.Valid()
    ensures res == GetOutcome(store.games, gameId, ifNoneMatch)
  {
    var service := new GameService(store, rules);
    var current := service.Get(gameId);
    if current.None? {
      return NoSuchGame;
    }
    var etag := MakeEtag(current.value.version);
    if ifNoneMatch.Some? && ifNoneMatch.value != "" && ifNoneMatch.value == etag {
      return NotModified;
    }
    res := Current(gameId, current.value, etag);
  }

  // ---------------------------------------------------------------------
  // Creation (`handleCreate`)
  // ---------------------------------------------------------------------

  /** `201 { gameId, ...created }`. */
  datatype CreateResult = Created(gameId: string, game: StoredGame) {
    function Code(): int {
      201
    }
  }

  method HandleCreate(store: InMemoryGameStore, rules: Rules, draws: seq<real>, now: int) returns (res: CreateResult)
    requires store.Valid()
    requires |draws| == 8 && RandomDraws(draws)
    modifies store
    ensures store.Valid()
    ensures res.Code() == 201
    ensures res.gameId == IdFromDraws(draws) && |res.gameId| == 8
    ensures res.game.id == res.gameId && res.game.version == 0
    ensures res.game == Stamp(res.gameId, InitialState(rules), now)
    ensures store.games == Put(old(store.games), res.gameId, InitialState(rules), now)
  {
    var service := new GameService(store, rules);
    var gameId := GenerateId(draws, 8);
    var created := service.Create(gameId, now);
    res := Created(gameId, created);
  }

  // ---------------------------------------------------------------------
  // Seats and moves (`handleMove`)
  // ---------------------------------------------------------------------

  /**
   * First-come binding: an unbound white seat goes to the requester;
   * otherwise an unbound black seat goes to a requester other than white.
   * A bound seat is never rebound, and the requester ends up holding a seat
   * unless both were already bound.
   */
  function BindSeats(seats: Seats, token: string): (bound: Seats)
    ensures seats.w.Some? ==> bound.w == seats.w
    ensures seats.b.Some? ==> bound.b == seats.b
    ensures bound.w.Some?
    ensures bound.w == Some(token) || bound.b == Some(token) || (seats.w.Some? && seats.b.Some?)
    ensures bound == seats || bound == seats.With(White, token) || bound == seats.With(Black, token)
    ensures seats.w == Some(token) ==> bound == seats
  {
    if seats.w.None? then seats.(w := Some(token))
    else if seats.w.value != token && seats.b.None? then seats.(b := Some(token))
    else seats
  }

  /** Black is bound only after white, and to a different token. */
  ghost predicate DistinctSeats(seats: Seats) {
    seats.b.Some? ==> seats.w.Some? && seats.w != seats.b
  }

  lemma BindSeatsKeepsDistinct(seats: Seats, token: string)
    requires DistinctSeats(seats)
    ensures DistinctSeats(BindSeats(seats, token))
  {
  }

  /** The seat of the side to move is bound to a token other than the requester's. */
  predicate SeatForbids(seats: Seats, turn: Color, token: string)
    ensures !SeatForbids(seats, turn, token) <==> seats.Get(turn) == None || seats.Get(turn) == Some(token)
  {
    seats.Get(turn).Some? && seats.Get(turn).value != token
  }

  /**
   * The gate after binding: a requester is refused only for a seat someone
   * else already held before the request, never for one the request itself bound.
   */
  lemma GateAfterBinding(seats: Seats, turn: Color, token: string)
    ensures SeatForbids(BindSeats(seats, token), turn, token) <==> seats.Get(turn).Some? && seats.Get(turn) != Some(token)
  {
  }

  /** The response of `handleMove`. */
  datatype MoveResult =
    | Applied(gameId: string, game: StoredGame)
    | InvalidPayload
    | WrongSeat(gameId: string, game: StoredGame)
    | IllegalMove(gameId: string, game: StoredGame)
    | NotFound
    | Conflict(gameId: string, game: StoredGame)
  {
    function Code(): int {
      match this
      case Applied(_, _) => 200
      case InvalidPayload => 400
      case WrongSeat(_, _) => 400
      case IllegalMove(_, _) => 400
      case NotFound => 404
      case Conflict(_, _) => 409
    }
  }

  /**
   * The mapping of `makeMove`'s answer, compared with the record read before
   * it, to a response: 404, 409 with the earlier record, 400 illegal move,
   * 200, or 409 with the later record. Every pair of records gets exactly one.
   */
  function Classify(gameId: string, before: StoredGame, after: Option<StoredGame>, expectedVersion: nat): (r: MoveResult)
    ensures r.Code() in {200, 400, 404, 409}
    ensures r.Code() == 404 <==> after.None?
    ensures r.Code() == 200 <==> after.Some? && after.value.version == before.version + 1
    ensures r.Code() == 400 <==> after.Some? && after.value.version == before.version == expectedVersion
    ensures r.Code() == 400 ==> r == IllegalMove(gameId, before)
    ensures r.Code() == 200 ==> r == Applied(gameId, after.value)
    ensures r.Code() == 409 && after.value.version == before.version ==> r == Conflict(gameId, before)
    ensures r.Code() == 409 && after.value.version != before.version ==> r == Conflict(gameId, after.value)
  {
    if after.None? then NotFound
    else if after.value.version == before.version then
      if before.version != expectedVersion then Conflict(gameId, before)
      else IllegalMove(gameId, before)
    else if after.value.version == before.version + 1 then Applied(gameId, after.value)
    else Conflict(gameId, after.value)
  }

  /** The response of a move request together with the game and seat tables it leaves. */
  datatype HandlerStep = HandlerStep(result: MoveResult, games: map<string, StoredGame>, seats: map<string, Seats>)

  /** What `handleMove` does, as one atomic step on both stores. */
  function MoveOutcome(rules: Rules, games: map<string, StoredGame>, table: map<string, Seats>,
                       gameId: string, body: Body, now: int): (r: HandlerStep)
    ensures r.result.Code() in {200, 400, 404, 409}
    ensures r.result.Code() == 404 <==> ParseMove(body).Some? && gameId !in games
    ensures r.result.InvalidPayload? <==> ParseMove(body).None?
    ensures !r.result.Applied? ==> r.games == games
    ensures r.result.Applied? ==>
              gameId in games && gameId in r.games &&
              r.games[gameId].version == games[gameId].version + 1 && r.result.game == r.games[gameId]
    ensures forall g :: g != gameId ==> Lookup(r.games, g) == Lookup(games, g)
    ensures forall g :: g != gameId ==> SeatsOf(r.seats, g) == SeatsOf(table, g)
    ensures r.result.WrongSeat? ==> r.result.game == games[gameId]
    ensures ParseMove(body).Some? && gameId in games ==>
              SeatsOf(r.seats, gameId) == BindSeats(SeatsOf(table, gameId), ParseMove(body).value.playerToken)
    ensures ParseMove(body).None? || gameId !in games ==> r.seats == table
    ensures r.result.Applied? ==>
              var cmd := ParseMove(body).value;
              && r.games == ApplyMove(rules, games, gameId, cmd.expectedVersion, cmd.Move(), now).games
              && rules.move(games[gameId].fen, cmd.Move()).Moved?
              && r.games[gameId].fen == rules.move(games[gameId].fen, cmd.Move()).next
              && Consistent(rules, r.games[gameId].State())
  {
    match ParseMove(body)
    case None => HandlerStep(InvalidPayload, games, table)
    case Some(cmd) =>
      match Lookup(games, gameId)
      case None => HandlerStep(NotFound, games, table)
      case Some(game) =>
        var seats := SeatsOf(table, gameId);
        var bound := BindSeats(seats, cmd.playerToken);
        var table' := if bound == seats then table else table[gameId := bound];
        if SeatForbids(bound, game.turn, cmd.playerToken) then HandlerStep(WrongSeat(gameId, game), games, table')
        else
          var step := ApplyMove(rules, games, gameId, cmd.expectedVersion, cmd.Move(), now);
          HandlerStep(Classify(gameId, game, step.result, cmd.expectedVersion), step.games, table')
  }

  method HandleMove(store: InMemoryGameStore, seatStore: InMemorySeatStore, rules: Rules,
                    gameId: string, body: Body, now: int) returns (res: MoveResult)
    requires store.Valid()
    modifies store, seatStore
    ensures store.Valid()
    ensures HandlerStep(res, store.games, seatStore.table)
         == MoveOutcome(rules, old(store.games), old(seatStore.table), gameId, body, now)
  {
    var parse := ParseMove(body);
    if parse.None? {
      return InvalidPayload;
    }
    var cmd := parse.value;
    var service := new GameService(store, rules);
    var game := service.Get(gameId);
    if game.None? {
      return NotFound;
    }

    var seats := seatStore.GetSeats(gameId);
    if seats.w.None? {
      seatStore.SetSeat(gameId, White, cmd.playerToken);
      seats := seats.(w := Some(cmd.playerToken));
    } else if seats.w.value != cmd.playerToken && seats.b.None? {
      seatStore.SetSeat(gameId, Black, cmd.playerToken);
      seats := seats.(b := Some(cmd.playerToken));
    }
    var required := if game.value.turn == White then seats.w else seats.b;
    if required.Some? && required.value != cmd.playerToken {
      return WrongSeat(gameId, game.value);
    }

    var before := game.value;
    var after := service.MakeMove(gameId, cmd.expectedVersion, cmd.from, cmd.to, cmd.promotion, now);
    if after.None? {
      return NotFound;
    }
    var later := after.value;
    if later.version == before.version {
      if before.version != cmd.expectedVersion {
        return Conflict(gameId, before);
      }
      return IllegalMove(gameId, before);
    }
    if later.version == before.version + 1 {
      return Applied(gameId, later);
    }
    res := Conflict(gameId, later);
  }

  // ---------------------------------------------------------------------
  // Properties of a move request
  // ---------------------------------------------------------------------

  /** A payload the schema rejects is answered 400 whatever the stores hold, and nothing is written. */
  lemma InvalidPayloadChangesNothing(rules: Rules, games: map<string, StoredGame>, table: map<string, Seats>,
                                     gameId: string, body: Body, now: int)
    requires ParseMove(body).None?
    ensures MoveOutcome(rules, games, table, gameId, body, now) == HandlerStep(InvalidPayload, games, table)
  {
  }

  /** A move on an unknown game is answered 404 and binds no seat. */
  lemma UnknownGameChangesNothing(rules: Rules, games: map<string, StoredGame>, table: map<string, Seats>,
                                  gameId: string, body: Body, now: int)
    requires ParseMove(body).Some? && gameId !in games
    ensures MoveOutcome(rules, games, table, gameId, body, now) == HandlerStep(NotFound, games, table)
  {
  }

  /** A bound seat keeps its token, and the seats of other games are untouched. */
  lemma SeatsNeverRebound(rules: Rules, games: map<string, StoredGame>, table: map<string, Seats>,
                          gameId: string, body: Body, now: int)
    ensures var after := MoveOutcome(rules, games, table, gameId, body, now).seats;
      forall g, c :: SeatsOf(table, g).Get(c).Some? ==> SeatsOf(after, g).Get(c) == SeatsOf(table, g).Get(c)
    ensures var after := MoveOutcome(rules, games, table, gameId, body, now).seats;
      forall g :: g != gameId ==> SeatsOf(after, g) == SeatsOf(table, g)
  {
  }

  /** No token ever holds both seats of a game. */
  lemma SeatsStayDistinct(rules: Rules, games: map<string, StoredGame>, table: map<string, Seats>,
                          gameId: string, body: Body, now: int)
    requires forall g :: DistinctSeats(SeatsOf(table, g))
    ensures var after := MoveOutcome(rules, games, table, gameId, body, now).seats;
      forall g :: DistinctSeats(SeatsOf(after, g))
  {
    var after := MoveOutcome(rules, games, table, gameId, body, now).seats;
    forall g ensures DistinctSeats(SeatsOf(after, g)) {
      if g == gameId && ParseMove(body).Some? && gameId in games {
        var seats := SeatsOf(table, g);
        var bound := BindSeats(seats, ParseMove(body).value.playerToken);
        BindSeatsKeepsDistinct(seats, ParseMove(body).value.playerToken);
        assert SeatsOf(after, g) == bound || SeatsOf(after, g) == seats;
      } else {
        SeatsNeverRebound(rules, games, table, gameId, body, now);
        assert SeatsOf(after, g) == SeatsOf(table, g);
      }
    }
  }

  /**
   * When the seat of the side to move is bound to another token, the answer
   * is 400 wrong_seat and the game is not touched: the move never reaches the
   * game service.
   */
  lemma WrongSeatNeverMoves(rules: Rules, games: map<string, StoredGame>, table: map<string, Seats>,
                            gameId: string, body: Body, now: int)
    requires ParseMove(body).Some? && gameId in games
    requires SeatForbids(BindSeats(SeatsOf(table, gameId), ParseMove(body).value.playerToken),
                         games[gameId].turn, ParseMove(body).value.playerToken)
    ensures MoveOutcome(rules, games, table, gameId, body, now).result == WrongSeat(gameId, games[gameId])
    ensures MoveOutcome(rules, games, table, gameId, body, now).games == games
  {
  }

  /** Once both seats are bound, a third token is refused on every move and binds nothing. */
  lemma ThirdTokenRefused(rules: Rules, games: map<string, StoredGame>, table: map<string, Seats>,
                          gameId: string, body: Body, now: int)
    requires ParseMove(body).Some? && gameId in games
    requires SeatsOf(table, gameId).w.Some? && SeatsOf(table, gameId).b.Some?
    requires ParseMove(body).value.playerToken != SeatsOf(table, gameId).w.value
    requires ParseMove(body).value.playerToken != SeatsOf(table, gameId).b.value
    ensures MoveOutcome(rules, games, table, gameId, body, now) == HandlerStep(WrongSeat(gameId, games[gameId]), games, table)
  {
  }

  /**
   * Two players take the seats with their first requests, whatever those
   * requests' outcomes; from then on any third token is refused and changes
   * nothing.
   */
  lemma TwoPlayersThenThirdRefused(rules: Rules, games: map<string, StoredGame>, gameId: string,
                                   first: Body, second: Body, third: Body, now: int)
    requires gameId in games
    requires ParseMove(first).Some? && ParseMove(second).Some? && ParseMove(third).Some?
    requires ParseMove(second).value.playerToken != ParseMove(first).value.playerToken
    requires ParseMove(third).value.playerToken !in {ParseMove(first).value.playerToken, ParseMove(second).value.playerToken}
    ensures var s1 := MoveOutcome(rules, games, map[], gameId, first, now);
      var s2 := MoveOutcome(rules, s1.games, s1.seats, gameId, second, now);
      SeatsOf(s2.seats, gameId) == Seats(Some(ParseMove(first).value.playerToken), Some(ParseMove(second).value.playerToken))
      && MoveOutcome(rules, s2.games, s2.seats, gameId, third, now) == HandlerStep(WrongSeat(gameId, s2.games[gameId]), s2.games, s2.seats)
  {
    var s1 := MoveOutcome(rules, games, map[], gameId, first, now);
    VersionAdvancesOnlyWhenApplied(rules, games, map[], gameId, first, now);
    var s2 := MoveOutcome(rules, s1.games, s1.seats, gameId, second, now);
    VersionAdvancesOnlyWhenApplied(rules, s1.games, s1.seats, gameId, second, now);
    ThirdTokenRefused(rules, s2.games, s2.seats, gameId, third, now);
  }

  /** The game records stay consistent with the engine through every request. */
  lemma MoveOutcomeKeepsConsistent(rules: Rules, games: map<string, StoredGame>, table: map<string, Seats>,
                                   gameId: string, body: Body, now: int)
    requires AllConsistent(rules, games)
    ensures AllConsistent(rules, MoveOutcome(rules, games, table, gameId, body, now).games)
  {
    if ParseMove(body).Some? && gameId in games {
      var cmd := ParseMove(body).value;
      ApplyMoveKeepsConsistent(rules, games, gameId, cmd.expectedVersion, cmd.Move(), now);
    }
  }

  /**
   * For a request that passes validation and the seat gate: 200 exactly
   * when the version matches and the engine accepts the move, 409 with the
   * current record exactly when the version is stale, 400 illegal_move
   * exactly when the version matches and the engine refuses. The store
   * changes only on 200, by one version.
   */
  lemma AuthorisedMoveOutcome(rules: Rules, games: map<string, StoredGame>, table: map<string, Seats>,
                              gameId: string, body: Body, now: int)
    requires ParseMove(body).Some? && gameId in games
    requires !SeatForbids(BindSeats(SeatsOf(table, gameId), ParseMove(body).value.playerToken),
                          games[gameId].turn, ParseMove(body).value.playerToken)
    ensures var cmd, before := ParseMove(body).value, games[gameId];
      var step := MoveOutcome(rules, games, table, gameId, body, now);
      && (step.result.Applied? <==> before.version == cmd.expectedVersion && rules.move(before.fen, cmd.Move()).Moved?)
      && (step.result == Conflict(gameId, before) <==> before.version != cmd.expectedVersion)
      && (step.result == IllegalMove(gameId, before) <==>
            before.version == cmd.expectedVersion && !rules.move(before.fen, cmd.Move()).Moved?)
      && (step.result.Conflict? ==> step.result.game == before)
      && (step.result.Applied? ==>
            step.result.game == step.games[gameId] && step.games[gameId].version == before.version + 1)
      && (!step.result.Applied? ==> step.games == games)
  {
  }

  /**
   * Whatever the request, the version of the game goes up by one on a 200
   * and stays put otherwise, and no other game changes.
   */
  lemma VersionAdvancesOnlyWhenApplied(rules: Rules, games: map<string, StoredGame>, table: map<string, Seats>,
                                       gameId: string, body: Body, now: int)
    ensures var step := MoveOutcome(rules, games, table, gameId, body, now);
      forall g :: g != gameId ==> Lookup(step.games, g) == Lookup(games, g)
    ensures var step := MoveOutcome(rules, games, table, gameId, body, now);
      (gameId in step.games <==> gameId in games)
      && (gameId in games ==>
            step.games[gameId].version == games[gameId].version + (if step.result.Applied? then 1 else 0))
  {
    var step := MoveOutcome(rules, games, table, gameId, body, now);
    if ParseMove(body).Some? && gameId in games
       && !SeatForbids(BindSeats(SeatsOf(table, gameId), ParseMove(body).value.playerToken),
                       games[gameId].turn, ParseMove(body).value.playerToken) {
      AuthorisedMoveOutcome(rules, games, table, gameId, body, now);
    }
  }

  /** On a 200 the side to move changes, when the engine hands the turn over. */
  lemma AppliedMoveHandsOverTurn(rules: Rules, games: map<string, StoredGame>, table: map<string, Seats>,
                                 gameId: string, body: Body, now: int)
    requires FlipsTurn(rules)
    requires gameId in games && Consistent(rules, games[gameId].State())
    requires MoveOutcome(rules, games, table, gameId, body, now).result.Applied?
    ensures var step := MoveOutcome(rules, games, table, gameId, body, now);
      gameId in step.games && step.games[gameId].turn == games[gameId].turn.Other()
  {
    var cmd := ParseMove(body).value;
    TurnAlternates(rules, games, gameId, cmd.expectedVersion, cmd.Move(), now);
  }

  /** A client polling with the tag it held before a 200 gets the new state, not 304. */
  lemma AppliedMoveInvalidatesEtag(rules: Rules, games: map<string, StoredGame>, table: map<string, Seats>,
                                   gameId: string, body: Body, now: int)
    requires gameId in games
    requires MoveOutcome(rules, games, table, gameId, body, now).result.Applied?
    ensures var step := MoveOutcome(rules, games, table, gameId, body, now);
      GetOutcome(step.games, gameId, Some(MakeEtag(games[gameId].version))).Current?
  {
    var step := MoveOutcome(rules, games, table, gameId, body, now);
    VersionAdvancesOnlyWhenApplied(rules, games, table, gameId, body, now);
    NotModifiedIffSameVersion(step.games, gameId, games[gameId].version);
  }

  // ---------------------------------------------------------------------
  // In-memory seat store as resolved per request
  // ---------------------------------------------------------------------

  /**
   * `handleMove` as written for the in-memory backend: `resolveSeatStore`
   * builds a new, empty seat store on every call, so each request starts
   * from a table with no seats bound and its writes are dropped afterwards.
   */
  function MoveOutcomeWithFreshSeats(rules: Rules, games: map<string, StoredGame>, gameId: string, body: Body, now: int): (r: MoveResult)
    ensures ParseMove(body).None? ==> r == InvalidPayload
    ensures ParseMove(body).Some? && gameId !in games ==> r == NotFound
    ensures ParseMove(body).Some? && gameId in games ==>
      var cmd := ParseMove(body).value;
      r == Classify(gameId, games[gameId], ApplyMove(rules, games, gameId, cmd.expectedVersion, cmd.Move(), now).result, cmd.expectedVersion)
  {
    MoveOutcome(rules, games, map[], gameId, body, now).result
  }

  /**
   * With a fresh seat store per request the seat gate never refuses: the
   * requester is bound to white, and black is unbound, whoever sent it.
   */
  lemma FreshSeatStoreNeverRefuses(rules: Rules, games: map<string, StoredGame>, gameId: string, body: Body, now: int)
    ensures !MoveOutcomeWithFreshSeats(rules, games, gameId, body, now).WrongSeat?
  {
    if ParseMove(body).Some? && gameId in games {
      var token := ParseMove(body).value.playerToken;
      assert BindSeats(SeatsOf(map[], gameId), token) == Seats(Some(token), None);
    }
  }
}
