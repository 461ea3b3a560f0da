/**
 * The interface of the chess rules engine (the chess.js library) as the
 * session engine uses it. The engine is a collaborator whose behaviour is not
 * modelled: a `Rules` value bundles the operations the server calls, and every
 * result below holds for every such value unless a lemma asks for one of the
 * assumptions stated at the end of this module.
 */
module Engine {
  import opened Wrappers

  /** A position, identified with its FEN text (`chess.fen()`). */
  type Fen = string

  /** The side to move, `"w"` or `"b"` in the source. */
  datatype Color = White | Black {
    function Other(): (c: Color)
      ensures c != this
    {
      if this == White then Black else White
    }
  }

  datatype Promotion = Queen | Rook | Bishop | Knight

  /** The argument of `chess.move({ from, to, promotion })`. */
  datatype MoveRequest = MoveRequest(from: string, to: string, promotion: Option<Promotion>)

  /**
   * What `chess.move` does with a request: it returns the move (and the
   * position becomes `next`), returns null, or throws.
   */
  datatype Reply = Moved(next: Fen) | NoMove | Threw

  /**
   * The engine's operations. `start` is the position `new Chess()` sets up;
   * the predicates are `isGameOver`, `isCheckmate`, `isStalemate`, `isDraw`
   * and `isCheck` evaluated on a position.
   */
  datatype Rules = Rules(
    start: Fen,
    move: (Fen, MoveRequest) -> Reply,
    turn: Fen -> Color,
    isGameOver: Fen -> bool,
    isCheckmate: Fen -> bool,
    isStalemate: Fen -> bool,
    isDraw: Fen -> bool,
    isCheck: Fen -> bool)

  /** Assumption: every move the engine accepts hands the turn to the other side. */
  ghost predicate FlipsTurn(rules: Rules) {
    forall fen, m :: rules.move(fen, m).Moved? ==> rules.turn(rules.move(fen, m).next) == rules.turn(fen).Other()
  }

  /** Assumption: White moves first from the standard starting position. */
  ghost predicate StartsWithWhite(rules: Rules) {
    rules.turn(rules.start) == White
  }
}
