/**
  internal/game/game.go, part one: the game-type and game-status enumerations
  shared by both engines, the list of selectable game types and the game-type
  names.
*/
module GameKinds {

  /** `GameType` is a Go int: any value can arrive, only two are named. */
  type GameType = int

  const TicTacToeType: GameType := 0
  const CheckersType: GameType := 1

  datatype GameStatus = Ongoing | Player1Win | Player2Win | Draw

  /** The game types a player may select: only tic-tac-toe is offered. */
  function GetGameTypes(): seq<GameType> {
    [TicTacToeType]
  }

  /** `GameType.String`. */
  function GameTypeString(gt: GameType): (r: string)
    ensures r == "Unknown" <==> gt != TicTacToeType && gt != CheckersType
    ensures gt == TicTacToeType ==> r == "TicTacToe"
    ensures gt == CheckersType ==> r == "Checkers"
  {
    if gt == TicTacToeType then "TicTacToe"
    else if gt == CheckersType then "Checkers"
    else "Unknown"
  }

  /** The selectable list has exactly one entry, tic-tac-toe; checkers cannot be picked from it. */
  lemma GameTypesOffered()
    ensures |GetGameTypes()| == 1 && GetGameTypes()[0] == TicTacToeType
    ensures CheckersType !in GetGameTypes()
  {
  }
}
