/**
 * web/src/lib/ChessService.ts: a wrapper around one engine position that
 * counts the plies applied to it (`version`) and maps the engine's
 * predicates to a status value.
 */
module ChessLib {
  import opened Wrappers
  import opened Engine

  datatype Status = Playing | Check | Checkmate | Stalemate | Draw {
    predicate IsTerminal() {
      this == Checkmate || this == Stalemate || this == Draw
    }
  }

  /** A snapshot of a game: position, side to move, status and ply count. */
  datatype GameState = GameState(fen: Fen, turn: Color, status: Status, version: nat)

  /**
   * `computeStatus`: checkmate, then stalemate, then draw when the game is
   * over (draw also when the engine names no more specific reason); check or
   * playing when it is not.
   */
  function StatusOf(rules: Rules, fen: Fen): (st: Status)
    ensures st.IsTerminal() <==> rules.isGameOver(fen)
    ensures st == Checkmate <==> rules.isGameOver(fen) && rules.isCheckmate(fen)
    ensures st == Stalemate <==> rules.isGameOver(fen) && !rules.isCheckmate(fen) && rules.isStalemate(fen)
    ensures st == Draw <==> rules.isGameOver(fen) && !rules.isCheckmate(fen) && !rules.isStalemate(fen)
    ensures st == Check <==> !rules.isGameOver(fen) && rules.isCheck(fen)
    ensures st == Playing <==> !rules.isGameOver(fen) && !rules.isCheck(fen)
  {
    if rules.isGameOver(fen) then
      if rules.isCheckmate(fen) then Checkmate
      else if rules.isStalemate(fen) then Stalemate
      else if rules.isDraw(fen) then Draw
      else Draw
    else if rules.isCheck(fen) then Check
    else Playing
  }

  /** The engine's `isDraw` never decides the status: game over without mate or stalemate is a draw either way. */
  lemma IsDrawIrrelevant(rules: Rules, fen: Fen, isDraw: Fen -> bool)
    ensures StatusOf(rules.(isDraw := isDraw), fen) == StatusOf(rules, fen)
  {
  }

  /** The state `getState` reports for a position and ply count: consistent with the engine, at that position and count. */
  function StateOf(rules: Rules, fen: Fen, version: nat): (s: GameState)
    ensures Consistent(rules, s) && s.fen == fen && s.version == version
  {
    GameState(fen, rules.turn(fen), StatusOf(rules, fen), version)
  }

  /** A state whose turn and status are the ones the engine derives from its position. */
  ghost predicate Consistent(rules: Rules, s: GameState) {
    s.turn == rules.turn(s.fen) && s.status == StatusOf(rules, s.fen)
  }

  /** The state of a freshly constructed service: the start position at ply 0. */
  function InitialState(rules: Rules): (s: GameState)
    ensures Consistent(rules, s) && s.fen == rules.start && s.version == 0
  {
    StateOf(rules, rules.start, 0)
  }

  class ChessService {
    const rules: Rules
    var chess: Fen
    var version: nat

    /** `new ChessService(fen?, version = 0)`: the start position when no FEN is given. */
    constructor(rules: Rules, fen: Option<Fen> := None, version: nat := 0)
      ensures this.rules == rules
      ensures chess == fen.GetOr(rules.start) && this.version == version
    {
      this.rules := rules;
      this.chess := fen.GetOr(rules.start);
      this.version := version;
    }

    /** Rebuilds a service from a snapshot; on a consistent snapshot `getState` gives it back unchanged. */
    static method FromState(rules: Rules, state: GameState) returns (svc: ChessService)
      ensures fresh(svc) && svc.rules == rules
      ensures svc.GetState().fen == state.fen && svc.GetState().version == state.version
      ensures Consistent(rules, state) ==> svc.GetState() == state
    {
      svc := new ChessService(rules, Some(state.fen), state.version);
    }

    function GetState(): (s: GameState)
      reads this
      ensures Consistent(rules, s)
      ensures s.fen == chess && s.version == version
    {
      StateOf(rules, chess, version)
    }

    /**
     * Applies one move. The ply count goes up by exactly one when the engine
     * returns a move; when it returns null or throws, nothing changes and the
     * result is false (null).
     */
    method MakeMove(m: MoveRequest) returns (moved: bool)
      modifies this
      ensures moved <==> old(rules.move(chess, m)).Moved?
      ensures moved ==> chess == old(rules.move(chess, m)).next && version == old(version) + 1
      ensures !moved ==> chess == old(chess) && version == old(version)
    {
      match rules.move(chess, m)
      case Moved(next) =>
        chess := next;
        version := version + 1;
        moved := true;
      case NoMove =>
        moved := false;
      case Threw =>
        moved := false;
    }
  }

  /**
   * The opening scenario: a new service is at White's turn and ply 0, and a
   * move the engine accepts takes it to Black's turn and ply 1.
   */
  method OpeningMove(rules: Rules, m: MoveRequest) returns (before: GameState, moved: bool, after: GameState)
    requires StartsWithWhite(rules) && FlipsTurn(rules)
    ensures before.turn == White && before.version == 0
    ensures moved <==> rules.move(rules.start, m).Moved?
    ensures moved ==> after.turn == Black && after.version == 1
    ensures !moved ==> after == before
  {
    var svc := new ChessService(rules);
    before := svc.GetState();
    moved := svc.MakeMove(m);
    after := svc.GetState();
  }
}
