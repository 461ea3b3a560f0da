/**
 * web/src/server/GameService.ts: creating games and applying moves under
 * optimistic concurrency (read, compare the version, apply, save).
 */
module Service {
  import opened Wrappers
  import opened Engine
  import opened ChessLib
  import opened GameStore

  /** What `makeMove` returns together with the store contents it leaves behind. */
  datatype MoveStep = MoveStep(result: Option<StoredGame>, games: map<string, StoredGame>)

  /**
   * The effect of `GameService.makeMove` on the store. An unknown id gives
   * null; a stored version other than `expectedVersion`, or a move the engine
   * does not accept, gives the current record and writes nothing; an
   * accepted move saves and returns the next state, one ply further on.
   */
  function ApplyMove(rules: Rules, games: map<string, StoredGame>, id: string, expectedVersion: nat,
                     m: MoveRequest, now: int): (step: MoveStep)
    ensures forall other :: other != id ==> Lookup(step.games, other) == Lookup(games, other)
    ensures id in step.games <==> id in games
    ensures id !in games ==> step.result.None? && step.games == games
    ensures id in games ==> step.games[id].version == games[id].version || step.games[id].version == games[id].version + 1
    ensures id in games ==>
      (step.games[id].version == games[id].version + 1 <==>
       games[id].version == expectedVersion && rules.move(games[id].fen, m).Moved?)
    ensures id in games && step.games[id].version == games[id].version ==>
      step.games == games && step.result == Some(games[id])
    ensures id in games && step.games[id].version == games[id].version + 1 ==>
      && step.result == Some(step.games[id])
      && step.games[id].id == id
      && step.games[id].fen == rules.move(games[id].fen, m).next
      && Consistent(rules, step.games[id].State())
    ensures WellKeyed(games) ==> WellKeyed(step.games)
  {
    match Lookup(games, id)
    case None => MoveStep(None, games)
    case Some(current) =>
      if current.version != expectedVersion then MoveStep(Some(current), games)
      else
        match rules.move(current.fen, m)
        case Moved(next) =>
          var games' := Put(games, id, StateOf(rules, next, current.version + 1), now);
          MoveStep(Some(games'[id]), games')
        case NoMove => MoveStep(Some(current), games)
        case Threw => MoveStep(Some(current), games)
  }

  /** Every stored record agrees with the engine on its turn and status. */
  ghost predicate AllConsistent(rules: Rules, games: map<string, StoredGame>) {
    forall id :: id in games ==> Consistent(rules, games[id].State())
  }

  /** Storing a newly created game keeps every record consistent. */
  lemma CreateKeepsConsistent(rules: Rules, games: map<string, StoredGame>, id: string, now: int)
    requires AllConsistent(rules, games)
    ensures AllConsistent(rules, Put(games, id, InitialState(rules), now))
  {
  }

  /** Moves keep every record consistent: a new record is always built from the engine's answer. */
  lemma ApplyMoveKeepsConsistent(rules: Rules, games: map<string, StoredGame>, id: string, expectedVersion: nat,
                                 m: MoveRequest, now: int)
    requires AllConsistent(rules, games)
    ensures AllConsistent(rules, ApplyMove(rules, games, id, expectedVersion, m, now).games)
  {
  }

  /** When the engine hands the turn over on every move, an accepted move flips the stored side to move. */
  lemma TurnAlternates(rules: Rules, games: map<string, StoredGame>, id: string, expectedVersion: nat, m: MoveRequest, now: int)
    requires FlipsTurn(rules)
    requires id in games && Consistent(rules, games[id].State())
    ensures var step := ApplyMove(rules, games, id, expectedVersion, m, now);
      step.games[id].version == games[id].version + 1 ==> step.games[id].turn == games[id].turn.Other()
  {
    var step := ApplyMove(rules, games, id, expectedVersion, m, now);
    if step.games[id].version == games[id].version + 1 {
      var fen := games[id].fen;
      assert rules.move(fen, m).Moved?;
      assert rules.turn(rules.move(fen, m).next) == rules.turn(fen).Other();
    }
  }

  /** How many of `moves`, played one after another from `fen`, the engine accepts. */
  function AcceptedPlies(rules: Rules, fen: Fen, moves: seq<MoveRequest>): (n: nat)
    ensures n <= |moves|
    decreases |moves|
  {
    if |moves| == 0 then 0
    else match rules.move(fen, moves[0])
      case Moved(next) => 1 + AcceptedPlies(rules, next, moves[1..])
      case NoMove => AcceptedPlies(rules, fen, moves[1..])
      case Threw => AcceptedPlies(rules, fen, moves[1..])
  }

  /** The position reached by playing `moves` from `fen`, skipping the ones the engine refuses. */
  function FinalPosition(rules: Rules, fen: Fen, moves: seq<MoveRequest>): Fen
    decreases |moves|
  {
    if |moves| == 0 then fen
    else match rules.move(fen, moves[0])
      case Moved(next) => FinalPosition(rules, next, moves[1..])
      case NoMove => FinalPosition(rules, fen, moves[1..])
      case Threw => FinalPosition(rules, fen, moves[1..])
  }

  /** A client that always sends the stored version as `expectedVersion` and submits `moves` in order. */
  function Replay(rules: Rules, games: map<string, StoredGame>, id: string, moves: seq<MoveRequest>, now: int): map<string, StoredGame>
    decreases |moves|
  {
    if |moves| == 0 then games
    else
      var expected := if id in games then games[id].version else 0;
      Replay(rules, ApplyMove(rules, games, id, expected, moves[0], now).games, id, moves[1..], now)
  }

  /**
   * Successive moves sent with the current version advance the version by
   * one per accepted move and by nothing otherwise, so it counts the plies
   * played; other games are untouched.
   */
  lemma {:induction false} ReplayCountsPlies(rules: Rules, games: map<string, StoredGame>, id: string, moves: seq<MoveRequest>, now: int)
    requires id in games
    ensures id in Replay(rules, games, id, moves, now)
    ensures Replay(rules, games, id, moves, now)[id].version == games[id].version + AcceptedPlies(rules, games[id].fen, moves)
    ensures Replay(rules, games, id, moves, now)[id].fen == FinalPosition(rules, games[id].fen, moves)
    ensures forall other :: other != id ==> Lookup(Replay(rules, games, id, moves, now), other) == Lookup(games, other)
    decreases |moves|
  {
    if |moves| > 0 {
      var step := ApplyMove(rules, games, id, games[id].version, moves[0], now);
      ReplayCountsPlies(rules, step.games, id, moves[1..], now);
      assert Replay(rules, games, id, moves, now) == Replay(rules, step.games, id, moves[1..], now);
    }
  }

  /** From a freshly created game, the version after any sequence of moves is the number of plies accepted. */
  lemma VersionCountsPliesSinceCreate(rules: Rules, games: map<string, StoredGame>, id: string, moves: seq<MoveRequest>, created: int, now: int)
    ensures var games' := Replay(rules, Put(games, id, InitialState(rules), created), id, moves, now);
      id in games' && games'[id].version == AcceptedPlies(rules, rules.start, moves)
  {
    ReplayCountsPlies(rules, Put(games, id, InitialState(rules), created), id, moves, now);
  }

  class GameService {
    const store: InMemoryGameStore
    const rules: Rules

    constructor(store: InMemoryGameStore, rules: Rules)
      ensures this.store == store && this.rules == rules
    {
      this.store := store;
      this.rules := rules;
    }

    /** Stores and returns the start position at version 0 under `id`. */
    method Create(id: string, now: int) returns (created: StoredGame)
      requires store.Valid()
      modifies store
      ensures store.Valid()
      ensures created.id == id && created.version == 0 && created.fen == rules.start
      ensures created == Stamp(id, InitialState(rules), now)
      ensures store.games == Put(old(store.games), id, InitialState(rules), now)
    {
      var svc := new ChessService(rules);
      var initial := svc.GetState();
      created := store.CreateGame(id, initial, now);
    }

    method Get(id: string) returns (r: Option<StoredGame>)
      requires store.Valid()
      ensures r == Lookup(store.games, id)
    {
      r := store.GetGame(id);
    }

    method MakeMove(id: string, expectedVersion: nat, from: string, to: string, promotion: Option<Promotion>, now: int)
      returns (r: Option<StoredGame>)
      requires store.Valid()
      modifies store
      ensures store.Valid()
      ensures MoveStep(r, store.games) == ApplyMove(rules, old(store.games), id, expectedVersion, MoveRequest(from, to, promotion), now)
    {
      var current := store.GetGame(id);
      if current.None? {
        return None;
      }
      if current.value.version != expectedVersion {
        return current;
      }
      var svc := ChessService.FromState(rules, current.value.State());
      var moved := svc.MakeMove(MoveRequest(from, to, promotion));
      if !moved {
        return current;
      }
      var newState := svc.GetState();
      var saved := store.SaveGame(id, newState, now);
      r := Some(saved);
    }
  }
}
