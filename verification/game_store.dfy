/**
 * web/src/server/GameStore.ts: the in-memory game store, a map from game id
 * to the last saved state stamped with its id and a timestamp.
 */
module GameStore {
  import opened Wrappers
  import opened Engine
  import opened ChessLib

  /** `StoredGame = GameState & { id, updatedAt }`. */
  datatype StoredGame = StoredGame(id: string, fen: Fen, turn: Color, status: Status, version: nat, updatedAt: int) {
    /** The game-state part of the record. */
    function State(): GameState {
      GameState(fen, turn, status, version)
    }
  }

  /** The record `{ id, ...state, updatedAt }` that both writes build. */
  function Stamp(id: string, state: GameState, now: int): (g: StoredGame)
    ensures g.id == id && g.updatedAt == now
    ensures g.State() == state
  {
    StoredGame(id, state.fen, state.turn, state.status, state.version, now)
  }

  /** `games.get(id) ?? null`. */
  function Lookup(games: map<string, StoredGame>, id: string): (r: Option<StoredGame>)
    ensures r.Some? <==> id in games
    ensures r.Some? ==> r.value == games[id]
  {
    if id in games then Some(games[id]) else None
  }

  /**
   * `games.set(id, stamped)`: the entry for `id` becomes the stamped record,
   * whatever was there before, and every other id keeps its record.
   */
  function Put(games: map<string, StoredGame>, id: string, state: GameState, now: int): (games': map<string, StoredGame>)
    ensures Lookup(games', id) == Some(Stamp(id, state, now))
    ensures forall other :: other != id ==> Lookup(games', other) == Lookup(games, other)
    ensures games'.Keys == games.Keys + {id}
  {
    games[id := Stamp(id, state, now)]
  }

  /** Every record is filed under its own id. */
  ghost predicate WellKeyed(games: map<string, StoredGame>) {
    forall id :: id in games ==> games[id].id == id
  }

  lemma PutKeepsWellKeyed(games: map<string, StoredGame>, id: string, state: GameState, now: int)
    requires WellKeyed(games)
    ensures WellKeyed(Put(games, id, state, now))
  {
  }

  class InMemoryGameStore {
    var games: map<string, StoredGame>

    ghost predicate Valid()
      reads this
    {
      WellKeyed(games)
    }

    constructor()
      ensures Valid() && games == map[]
      ensures forall id :: Lookup(games, id) == None
    {
      games := map[];
    }

    /** Stores a new record for `id`, replacing any record already there. */
    method CreateGame(id: string, initial: GameState, now: int) returns (stored: StoredGame)
      requires Valid()
      modifies this
      ensures Valid()
      ensures stored == Stamp(id, initial, now)
      ensures games == Put(old(games), id, initial, now)
    {
      stored := Stamp(id, initial, now);
      games := games[id := stored];
    }

    method GetGame(id: string) returns (r: Option<StoredGame>)
      requires Valid()
      ensures r == Lookup(games, id)
      ensures r.Some? ==> r.value.id == id
    {
      r := if id in games then Some(games[id]) else None;
    }

    /** Overwrites the record for `id` unconditionally; the store never alters the state it is given. */
    method SaveGame(id: string, state: GameState, now: int) returns (stored: StoredGame)
      requires Valid()
      modifies this
      ensures Valid()
      ensures stored == Stamp(id, state, now)
      ensures games == Put(old(games), id, state, now)
    {
      stored := Stamp(id, state, now);
      games := games[id := stored];
    }
  }
}
