/**
 * web/src/server/SeatStore.ts: the in-memory seat store, a map from game id
 * to the tokens bound to the white and black seats.
 */
module SeatStore {
  import opened Wrappers
  import opened Engine

  /** `Seats = { w?: string; b?: string }`. */
  datatype Seats = Seats(w: Option<string>, b: Option<string>) {
    function Get(c: Color): Option<string> {
      if c == White then w else b
    }

    /** `seats[color] = token`. */
    function With(c: Color, token: string): (s: Seats)
      ensures s.Get(c) == Some(token) && s.Get(c.Other()) == Get(c.Other())
    {
      if c == White then this.(w := Some(token)) else this.(b := Some(token))
    }
  }

  const NoSeats: Seats := Seats(None, None)

  /** `map.get(gameId) ?? {}`: a game never written has both seats unbound. */
  function SeatsOf(table: map<string, Seats>, gameId: string): (s: Seats)
    ensures gameId !in table ==> s.w.None? && s.b.None?
    ensures gameId in table ==> s == table[gameId]
  {
    if gameId in table then table[gameId] else NoSeats
  }

  /**
   * The effect of `setSeat(gameId, color, token)`: that seat holds `token`
   * whether or not it was bound before, the other colour keeps its token, and
   * every other game keeps its seats.
   */
  function Assign(table: map<string, Seats>, gameId: string, c: Color, token: string): (table': map<string, Seats>)
    ensures SeatsOf(table', gameId).Get(c) == Some(token)
    ensures SeatsOf(table', gameId).Get(c.Other()) == SeatsOf(table, gameId).Get(c.Other())
    ensures forall g :: g != gameId ==> SeatsOf(table', g) == SeatsOf(table, g)
  {
    table[gameId := SeatsOf(table, gameId).With(c, token)]
  }

  /** Setting a seat twice to the same token is the same as setting it once. */
  lemma AssignIdempotent(table: map<string, Seats>, gameId: string, c: Color, token: string)
    ensures Assign(Assign(table, gameId, c, token), gameId, c, token) == Assign(table, gameId, c, token)
  {
  }

  class InMemorySeatStore {
    var table: map<string, Seats>

    constructor()
      ensures table == map[]
    {
      table := map[];
    }

    method GetSeats(gameId: string) returns (s: Seats)
      ensures s == SeatsOf(table, gameId)
      ensures gameId !in table ==> s == NoSeats
    {
      s := if gameId in table then table[gameId] else Seats(None, None);
    }

    /** Binds `token` to a seat; an existing binding is overwritten, so callers must read first. */
    method SetSeat(gameId: string, c: Color, token: string)
      modifies this
      ensures table == Assign(old(table), gameId, c, token)
    {
      var cur := if gameId in table then table[gameId] else Seats(None, None);
      cur := if c == White then cur.(w := Some(token)) else cur.(b := Some(token));
      table := table[gameId := cur];
    }
  }
}
