/**
  internal/game/checkers.go: the 8x8 checkers engine. Player 1 owns the white
  pieces (IDs 101..112, starting on rows 5..7) and player 2 the black ones
  (IDs 201..212, rows 0..2). A player names a piece by its number without the
  colour offset and a direction relative to their own side of the board.
  `ExecuteTurn` changes the board array, the ID-to-square map and the piece
  counters in place.
*/
module Checkers {
  import opened Wrappers
  import opened GameKinds
  import opened Vectors
  import opened Strconv

  /** A piece's colour; Go keeps it as a string: "w", "b", or "" on an empty square. */
  datatype Color = NoColor | White | Black

  datatype Piece = Piece(id: int, color: Color, isKing: bool)

  /** `CheckersPiece{}`: the zero piece that fills an empty square. */
  const EmptyPiece := Piece(0, NoColor, false)

  /**
    `CheckersDirection` is a Go int: the four named values are 0..3, and a turn
    decoded from the network may carry any other value.
  */
  type Direction = int

  const Left: Direction := 0
  const Right: Direction := 1
  const BackLeft: Direction := 2
  const BackRight: Direction := 3

  predicate IsDirection(d: Direction) {
    Left <= d <= BackRight
  }

  predicate IsBackward(d: Direction) {
    d == BackLeft || d == BackRight
  }

  datatype CheckersTurn = CheckersTurn(pieceID: int, direction: Direction)

  const NoPiecePrefix := "no piece found with ID "
  const BackwardsReason := "only kings can move backwards"
  const OutOfBoundsReason := "destination is out of bounds"
  const OccupiedReason := "destination is occupied"
  const CapturedBlack := "captured a black piece!"
  const CapturedWhite := "captured a white piece!"

  // ---------------------------------------------------------------------------
  // Directions and squares

  /**
    `convertDirectionFromBlackToWhite`: turns a direction seen from player 2's
    side into the board's absolute direction; any value that is not a named
    direction becomes Left.
  */
  function Mirror(d: Direction): (m: Direction)
    ensures IsDirection(m)
    ensures !IsDirection(d) ==> m == Left
  {
    if d == Left then BackRight
    else if d == Right then BackLeft
    else if d == BackLeft then Right
    else if d == BackRight then Left
    else Left
  }

  /** The offset `applyMove` adds for a direction; an unnamed direction adds nothing. */
  function Step(d: Direction): Vector {
    if d == Left then Vector(-1, -1)
    else if d == Right then Vector(1, -1)
    else if d == BackLeft then Vector(-1, 1)
    else if d == BackRight then Vector(1, 1)
    else Zero
  }

  /** `applyMove`: the square one step from `src` in direction `d` (a copy of `src` shifted by `Add`). */
  function ApplyMove(src: Vector, d: Direction): Vector {
    Sum(src, Step(d))
  }

  /** `isSquareOutOfBounds`. */
  predicate IsSquareOutOfBounds(v: Vector) {
    v.x < 0 || v.x > 7 || v.y < 0 || v.y > 7
  }

  predicate OnBoard(v: Vector) {
    !IsSquareOutOfBounds(v)
  }

  /** Mirroring twice gives back every named direction. */
  lemma MirrorInvolution(d: Direction)
    requires IsDirection(d)
    ensures Mirror(Mirror(d)) == d
  {
  }

  /**
    A named direction moves exactly one square diagonally: Left and Right
    toward row 0, the back directions toward row 7; a mirrored direction
    moves the opposite way, so player 2's view is the board turned round.
  */
  lemma ApplyMoveIsDiagonalStep(src: Vector, d: Direction)
    requires IsDirection(d)
    ensures var dst := ApplyMove(src, d);
      (dst.x == src.x - 1 || dst.x == src.x + 1) &&
      (dst.y == src.y - 1 <==> !IsBackward(d)) &&
      (dst.y == src.y + 1 <==> IsBackward(d))
    ensures ApplyMove(ApplyMove(src, d), Mirror(d)) == src
  {
  }

  /** The ID a turn's piece number stands for: +100 for player 1, +200 for anyone else. */
  function TruePieceID(pieceID: int, playerNum: int): int {
    if playerNum == 1 then pieceID + 100 else pieceID + 200
  }

  /** The absolute direction of a turn: mirrored for player 2 only. */
  function TrueDirection(d: Direction, playerNum: int): Direction {
    if playerNum == 2 then Mirror(d) else d
  }

  // ---------------------------------------------------------------------------
  // The initial layout

  /** A square holds a piece at the start when its row and column parities agree. */
  predicate IsDark(r: int, c: int) {
    (r % 2 == 0) == (c % 2 == 0)
  }

  /** The number of dark squares before `(r, c)` in row-major order. */
  function DarkBefore(r: nat, c: nat): nat {
    4 * r + if r % 2 == 0 then (c + 1) / 2 else c / 2
  }

  /** The square of the `k`-th dark square in row-major order. */
  function DarkSquare(k: nat): Vector
    requires k < 32
  {
    var row := k / 4;
    Vector(2 * (k % 4) + row % 2, row)
  }

  /** The piece `NewCheckersGame` puts on square `(r, c)`. */
  function InitialPiece(r: nat, c: nat): Piece
    requires r < 8 && c < 8
  {
    if IsDark(r, c) && r < 3 then Piece(201 + DarkBefore(r, c), Black, false)
    else if IsDark(r, c) && r > 4 then Piece(101 + DarkBefore(r, c) - 20, White, false)
    else EmptyPiece
  }

  predicate IsInitialID(id: int) {
    101 <= id <= 112 || 201 <= id <= 212
  }

  /** Where piece `id` starts. */
  function InitialPosition(id: int): Vector
    requires IsInitialID(id)
  {
    if id >= 201 then DarkSquare(id - 201) else DarkSquare(id - 101 + 20)
  }

  lemma DarkSquareOfIndex(r: nat, c: nat)
    requires r < 8 && c < 8 && IsDark(r, c)
    ensures DarkBefore(r, c) < 32 && DarkSquare(DarkBefore(r, c)) == Vector(c, r)
  {
    var k := DarkBefore(r, c);
    assert k / 4 == r;
    assert k % 4 == c / 2;
  }

  lemma IndexOfDarkSquare(k: nat)
    requires k < 32
    ensures var v := DarkSquare(k);
      0 <= v.y < 8 && 0 <= v.x < 8 && IsDark(v.y, v.x) && DarkBefore(v.y, v.x) == k
  {
  }

  /**
    The initial layout: black pieces only on dark squares of rows 0..2, white
    pieces only on dark squares of rows 5..7, rows 3 and 4 and every light
    square empty, and no piece a king.
  */
  lemma InitialLayout(r: nat, c: nat)
    requires r < 8 && c < 8
    ensures InitialPiece(r, c).color == Black <==> IsDark(r, c) && r < 3
    ensures InitialPiece(r, c).color == White <==> IsDark(r, c) && r > 4
    ensures InitialPiece(r, c).color == NoColor <==> InitialPiece(r, c) == EmptyPiece
    ensures !InitialPiece(r, c).isKing
  {
  }

  /**
    Twelve pieces of each colour: IDs 201..212 are exactly the black pieces and
    101..112 exactly the white ones, each on the one square `InitialPosition`
    names.
  */
  lemma {:induction false} InitialIDsArePlaced(id: int)
    requires IsInitialID(id)
    ensures var v := InitialPosition(id);
      OnBoard(v) && InitialPiece(v.y, v.x).id == id &&
      InitialPiece(v.y, v.x).color == (if id >= 201 then Black else White)
  {
    if id >= 201 {
      IndexOfDarkSquare(id - 201);
    } else {
      IndexOfDarkSquare(id - 101 + 20);
    }
  }

  lemma {:induction false} InitialPiecesAreListed(r: nat, c: nat)
    requires r < 8 && c < 8 && InitialPiece(r, c) != EmptyPiece
    ensures IsInitialID(InitialPiece(r, c).id)
    ensures InitialPosition(InitialPiece(r, c).id) == Vector(c, r)
  {
    DarkSquareOfIndex(r, c);
  }

  /** Counting dark squares one square, or one row, further on. */
  lemma DarkBeforeStep(r: nat, c: nat)
    ensures DarkBefore(r, c + 1) == DarkBefore(r, c) + (if IsDark(r, c) then 1 else 0)
    ensures DarkBefore(r + 1, 0) == DarkBefore(r, 8)
  {
  }

  /** The running IDs at the start of row `row`: the next black and the next white ID. */
  predicate NextIDs(row: nat, blackPieceID: int, whitePieceID: int) {
    && blackPieceID == 201 + (if row < 3 then DarkBefore(row, 0) else 12)
    && whitePieceID == 101 + (if row < 5 then 0 else DarkBefore(row, 0) - 20)
  }

  /** The IDs handed out so far, each at its starting square. */
  ghost predicate Handed(pieces: map<int, Vector>, blackPieceID: int, whitePieceID: int) {
    && (forall id :: id in pieces <==> 201 <= id < blackPieceID || 101 <= id < whitePieceID)
    && (forall id :: id in pieces ==> IsInitialID(id) && pieces[id] == InitialPosition(id))
  }

  /** Handing out the next black ID at its starting square keeps the record of IDs handed out. */
  lemma HandOutBlack(pieces: map<int, Vector>, blackPieceID: int, whitePieceID: int, v: Vector)
    requires Handed(pieces, blackPieceID, whitePieceID) && whitePieceID <= 201
    requires 201 <= blackPieceID <= 212 && InitialPosition(blackPieceID) == v
    ensures Handed(pieces[blackPieceID := v], blackPieceID + 1, whitePieceID)
  {
  }

  /** Handing out the next white ID at its starting square keeps the record of IDs handed out. */
  lemma HandOutWhite(pieces: map<int, Vector>, blackPieceID: int, whitePieceID: int, v: Vector)
    requires Handed(pieces, blackPieceID, whitePieceID)
    requires 101 <= whitePieceID <= 112 && InitialPosition(whitePieceID) == v
    ensures Handed(pieces[whitePieceID := v], blackPieceID, whitePieceID + 1)
  {
  }

  /**
    The inner loop of `NewCheckersGame`: across row `row`, each dark square
    of rows 0..2 gets the next black ID and each dark square of rows 5..7
    the next white ID; every other square gets the zero piece.
  */
  method LayOutRow(b: array2<Piece>, row: nat, pieces: map<int, Vector>, blackPieceID: int, whitePieceID: int)
    returns (nextPieces: map<int, Vector>, nextBlackID: int, nextWhiteID: int)
    requires b.Length0 == 8 && b.Length1 == 8 && row < 8
    requires NextIDs(row, blackPieceID, whitePieceID) && Handed(pieces, blackPieceID, whitePieceID)
    modifies b
    ensures forall c :: 0 <= c < 8 ==> b[row, c] == InitialPiece(row, c)
    ensures forall r, c :: 0 <= r < 8 && 0 <= c < 8 && r != row ==> b[r, c] == old(b[r, c])
    ensures NextIDs(row + 1, nextBlackID, nextWhiteID) && Handed(nextPieces, nextBlackID, nextWhiteID)
  {
    nextPieces, nextBlackID, nextWhiteID := pieces, blackPieceID, whitePieceID;
    for col := 0 to 8
      invariant forall c :: 0 <= c < col ==> b[row, c] == InitialPiece(row, c)
      invariant forall r, c :: 0 <= r < 8 && 0 <= c < 8 && r != row ==> b[r, c] == old(b[r, c])
      invariant nextBlackID == 201 + if row < 3 then DarkBefore(row, col) else 12
      invariant nextWhiteID == 101 + if row < 5 then 0 else DarkBefore(row, col) - 20
      invariant Handed(nextPieces, nextBlackID, nextWhiteID)
    {
      DarkBeforeStep(row, col);
      var hasPiece := (row % 2 == 0) == (col % 2 == 0);
      if hasPiece && row < 3 {
        DarkSquareOfIndex(row, col);
        HandOutBlack(nextPieces, nextBlackID, nextWhiteID, Vector(col, row));
        b[row, col] := Piece(nextBlackID, Black, false);
        nextPieces := nextPieces[nextBlackID := Vector(col, row)];
        nextBlackID := nextBlackID + 1;
      } else if hasPiece && row > 4 {
        DarkSquareOfIndex(row, col);
        HandOutWhite(nextPieces, nextBlackID, nextWhiteID, Vector(col, row));
        b[row, col] := Piece(nextWhiteID, White, false);
        nextPieces := nextPieces[nextWhiteID := Vector(col, row)];
        nextWhiteID := nextWhiteID + 1;
      } else {
        b[row, col] := EmptyPiece;
      }
    }
    DarkBeforeStep(row, 0);
  }

  /** The outer loop of `NewCheckersGame`: the rows laid out top to bottom, with IDs from 201 and 101. */
  method LayOutPieces() returns (b: array2<Piece>, pieces: map<int, Vector>)
    ensures fresh(b) && b.Length0 == 8 && b.Length1 == 8
    ensures forall r, c :: 0 <= r < 8 && 0 <= c < 8 ==> b[r, c] == InitialPiece(r, c)
    ensures forall id :: id in pieces <==> IsInitialID(id)
    ensures forall id :: id in pieces ==> pieces[id] == InitialPosition(id)
  {
    b := new Piece[8, 8]((_, _) => EmptyPiece);
    pieces := map[];
    var whitePieceID := 101;
    var blackPieceID := 201;
    for row := 0 to 8
      invariant forall r, c :: 0 <= r < row && 0 <= c < 8 ==> b[r, c] == InitialPiece(r, c)
      invariant NextIDs(row, blackPieceID, whitePieceID) && Handed(pieces, blackPieceID, whitePieceID)
    {
      pieces, blackPieceID, whitePieceID := LayOutRow(b, row, pieces, blackPieceID, whitePieceID);
    }
  }

  /** `checkGameStatus`: player 2 wins once white has no pieces, player 1 once black has none. */
  function StatusFromCounts(whiteCount: int, blackCount: int): (s: GameStatus)
    ensures s == Player2Win <==> whiteCount == 0
    ensures s == Player1Win <==> whiteCount != 0 && blackCount == 0
    ensures s == Ongoing <==> whiteCount != 0 && blackCount != 0
  {
    if whiteCount == 0 then Player2Win
    else if blackCount == 0 then Player1Win
    else Ongoing
  }

  // ---------------------------------------------------------------------------
  // The engine

  class CheckersGame {
    const gameType: GameType := CheckersType
    var board: array2<Piece>
    var piecePositions: map<int, Vector>
    var status: GameStatus
    var whitePieceCount: int
    var blackPieceCount: int

    /**
      The board and the ID map agree: every listed ID stands, coloured, on the
      square the map gives, and every square holds either the zero piece or a
      coloured piece listed at that square.
    */
    ghost predicate Valid()
      reads this, board
    {
      board.Length0 == 8 && board.Length1 == 8 &&
      0 !in piecePositions &&
      (forall id :: id in piecePositions ==>
        OnBoard(piecePositions[id]) &&
        board[piecePositions[id].y, piecePositions[id].x].id == id &&
        board[piecePositions[id].y, piecePositions[id].x].color != NoColor) &&
      (forall r, c :: 0 <= r < 8 && 0 <= c < 8 ==>
        board[r, c] == EmptyPiece ||
        (board[r, c].color != NoColor && board[r, c].id in piecePositions &&
         piecePositions[board[r, c].id] == Vector(c, r)))
    }

    /** `NewCheckersGame`: the pieces laid out with running IDs, twelve a side, the game ongoing. */
    constructor ()
      ensures Valid() && fresh(board)
      ensures forall r, c :: 0 <= r < 8 && 0 <= c < 8 ==> board[r, c] == InitialPiece(r, c)
      ensures forall id :: id in piecePositions <==> IsInitialID(id)
      ensures status == Ongoing && whitePieceCount == 12 && blackPieceCount == 12
    {
      var b, pieces := LayOutPieces();
      board := b;
      piecePositions := pieces;
      status := Ongoing;
      whitePieceCount := 12;
      blackPieceCount := 12;
      new;
      forall id | id in piecePositions
        ensures OnBoard(piecePositions[id]) &&
          board[piecePositions[id].y, piecePositions[id].x].id == id &&
          board[piecePositions[id].y, piecePositions[id].x].color != NoColor
      {
        InitialIDsArePlaced(id);
      }
      forall r, c | 0 <= r < 8 && 0 <= c < 8 && board[r, c] != EmptyPiece
        ensures board[r, c].color != NoColor && board[r, c].id in piecePositions &&
          piecePositions[board[r, c].id] == Vector(c, r)
      {
        InitialPiecesAreListed(r, c);
      }
    }

    /** The piece on a square. */
    function PieceAt(v: Vector): Piece
      requires board.Length0 == 8 && board.Length1 == 8 && OnBoard(v)
      reads this, board
    {
      board[v.y, v.x]
    }

    /** `isSquareEmpty`: the square holds no coloured piece. */
    predicate IsSquareEmpty(v: Vector)
      requires board.Length0 == 8 && board.Length1 == 8 && OnBoard(v)
      reads this, board
    {
      PieceAt(v).color == NoColor
    }

    /** The square a turn's piece stands on. */
    function Origin(turn: CheckersTurn, playerNum: int): Vector
      requires TruePieceID(turn.pieceID, playerNum) in piecePositions
      reads this
    {
      piecePositions[TruePieceID(turn.pieceID, playerNum)]
    }

    /** The square one step from the piece in the turn's absolute direction. */
    function Target(turn: CheckersTurn, playerNum: int): Vector
      requires TruePieceID(turn.pieceID, playerNum) in piecePositions
      reads this
    {
      ApplyMove(Origin(turn, playerNum), TrueDirection(turn.direction, playerNum))
    }

    /** The square beyond the target, where a capturing piece would land. */
    function Landing(turn: CheckersTurn, playerNum: int): Vector
      requires TruePieceID(turn.pieceID, playerNum) in piecePositions
      reads this
    {
      ApplyMove(Target(turn, playerNum), TrueDirection(turn.direction, playerNum))
    }

    /** A move onto an empty square on the board. */
    predicate IsPlainStep(turn: CheckersTurn, playerNum: int)
      requires Valid() && TruePieceID(turn.pieceID, playerNum) in piecePositions
      reads this, board
    {
      OnBoard(Target(turn, playerNum)) && IsSquareEmpty(Target(turn, playerNum))
    }

    /** The target holds an opponent's piece (a piece of another colour). */
    predicate IsCapture(turn: CheckersTurn, playerNum: int)
      requires Valid() && TruePieceID(turn.pieceID, playerNum) in piecePositions
      requires OnBoard(Target(turn, playerNum))
      reads this, board
    {
      var target := PieceAt(Target(turn, playerNum));
      target.color != NoColor && target.color != PieceAt(Origin(turn, playerNum)).color
    }

    /** A jump over an opponent's piece onto an empty square on the board. */
    predicate IsJump(turn: CheckersTurn, playerNum: int)
      requires Valid() && TruePieceID(turn.pieceID, playerNum) in piecePositions
      reads this, board
    {
      OnBoard(Target(turn, playerNum)) && IsCapture(turn, playerNum) &&
      OnBoard(Landing(turn, playerNum)) && IsSquareEmpty(Landing(turn, playerNum))
    }

    /**
      The rule the engine enforces: the numbered piece exists, only a king
      names a backward direction, and the move is a plain step or a jump.
    */
    predicate CanMove(turn: CheckersTurn, playerNum: int)
      requires Valid()
      reads this, board
    {
      TruePieceID(turn.pieceID, playerNum) in piecePositions &&
      (PieceAt(Origin(turn, playerNum)).isKing || !IsBackward(turn.direction)) &&
      (IsPlainStep(turn, playerNum) || IsJump(turn, playerNum))
    }

    /** The turn's piece exists, may head in the turn's direction, and its target square is on the board. */
    predicate TargetOnBoard(turn: CheckersTurn, playerNum: int)
      requires Valid()
      reads this, board
    {
      TruePieceID(turn.pieceID, playerNum) in piecePositions &&
      (PieceAt(Origin(turn, playerNum)).isKing || !IsBackward(turn.direction)) &&
      OnBoard(Target(turn, playerNum))
    }

    /** `ValidateMove`: accepts exactly the moves `CanMove` describes, and names the first rule broken. */
    function ValidateMove(turn: CheckersTurn, playerNum: int): (r: (bool, string))
      requires Valid()
      reads this, board
      ensures r.0 <==> CanMove(turn, playerNum)
      ensures r.0 <==> r.1 == ""
      ensures TruePieceID(turn.pieceID, playerNum) !in piecePositions ==>
        r == (false, NoPiecePrefix + IntToString(turn.pieceID))
      ensures (TruePieceID(turn.pieceID, playerNum) in piecePositions &&
               !PieceAt(Origin(turn, playerNum)).isKing && IsBackward(turn.direction)) ==>
        r == (false, BackwardsReason)
      ensures (TruePieceID(turn.pieceID, playerNum) in piecePositions &&
               (PieceAt(Origin(turn, playerNum)).isKing || !IsBackward(turn.direction)) &&
               !OnBoard(Target(turn, playerNum))) ==>
        r == (false, OutOfBoundsReason)
      ensures TargetOnBoard(turn, playerNum) && PieceAt(Target(turn, playerNum)).color == PieceAt(Origin(turn, playerNum)).color ==>
        r == (false, OccupiedReason)
      ensures TargetOnBoard(turn, playerNum) && IsCapture(turn, playerNum) && !OnBoard(Landing(turn, playerNum)) ==>
        r == (false, OutOfBoundsReason)
      ensures TargetOnBoard(turn, playerNum) && IsCapture(turn, playerNum) && OnBoard(Landing(turn, playerNum)) &&
              !IsSquareEmpty(Landing(turn, playerNum)) ==>
        r == (false, OccupiedReason)
    {
      var id := TruePieceID(turn.pieceID, playerNum);
      if id !in piecePositions then (false, NoPiecePrefix + IntToString(turn.pieceID))
      else
        var pieceCoords := piecePositions[id];
        var piece := board[pieceCoords.y, pieceCoords.x];
        if !piece.isKing && (turn.direction == BackLeft || turn.direction == BackRight) then
          (false, BackwardsReason)
        else
          var trueDirection := TrueDirection(turn.direction, playerNum);
          var targetSquare := ApplyMove(pieceCoords, trueDirection);
          if IsSquareOutOfBounds(targetSquare) then (false, OutOfBoundsReason)
          else
            var targetPiece := board[targetSquare.y, targetSquare.x];
            if targetPiece.color == piece.color then (false, OccupiedReason)
            else if targetPiece.color != NoColor && targetPiece.color != piece.color then
              var squareBehindTarget := ApplyMove(targetSquare, trueDirection);
              if IsSquareOutOfBounds(squareBehindTarget) then (false, OutOfBoundsReason)
              else if !IsSquareEmpty(squareBehindTarget) then (false, OccupiedReason)
              else (true, "")
            else (true, "")
    }

    /**
      `capturePiece`: removes the piece on `target` from the board and the ID
      map and decrements its colour's counter; the other counter is unchanged.
      The source panics on an empty square, which validation rules out.
    */
    method CapturePiece(target: Vector)
      requires Valid() && OnBoard(target) && board[target.y, target.x].id != 0
      modifies this, board
      ensures Valid() && board == old(board)
      ensures board[target.y, target.x] == EmptyPiece
      ensures forall r, c :: 0 <= r < 8 && 0 <= c < 8 && (r != target.y || c != target.x) ==>
        board[r, c] == old(board[r, c])
      ensures piecePositions == old(piecePositions) - {old(board[target.y, target.x].id)}
      ensures old(board[target.y, target.x].color) == White ==>
        whitePieceCount == old(whitePieceCount) - 1 && blackPieceCount == old(blackPieceCount)
      ensures old(board[target.y, target.x].color) != White ==>
        blackPieceCount == old(blackPieceCount) - 1 && whitePieceCount == old(whitePieceCount)
      ensures status == old(status)
    {
      var targetPiece := board[target.y, target.x];
      if targetPiece.color == White {
        whitePieceCount := whitePieceCount - 1;
      } else {
        blackPieceCount := blackPieceCount - 1;
      }
      piecePositions := piecePositions - {targetPiece.id};
      board[target.y, target.x] := EmptyPiece;
    }

    /** Lines 205-207 of `ExecuteTurn`: the piece `id` moves from `from` to the empty square `to`. */
    method MovePiece(id: int, from: Vector, to: Vector)
      requires Valid() && id in piecePositions && piecePositions[id] == from
      requires OnBoard(to) && board[to.y, to.x] == EmptyPiece
      modifies this, board
      ensures Valid() && board == old(board)
      ensures board[to.y, to.x] == old(board[from.y, from.x])
      ensures board[from.y, from.x] == EmptyPiece
      ensures forall r, c ::
        (0 <= r < 8 && 0 <= c < 8 && (r != from.y || c != from.x) && (r != to.y || c != to.x)) ==>
        board[r, c] == old(board[r, c])
      ensures piecePositions == old(piecePositions)[id := to]
      ensures whitePieceCount == old(whitePieceCount) && blackPieceCount == old(blackPieceCount)
      ensures status == old(status)
    {
      board[to.y, to.x] := board[from.y, from.x];
      board[from.y, from.x] := EmptyPiece;
      piecePositions := piecePositions[id := to];
    }

    /**
      `ExecuteTurn` as the source writes it. A capture removes the opponent's
      piece and returns at once: the capturing piece stays on its square (the
      landing square is computed and dropped) and the status is not
      recomputed. A plain move relocates the piece and sets the status from
      the counters.
    */
    method ExecuteTurnAsWritten(turn: CheckersTurn, playerNum: int) returns (msg: string)
      requires Valid() && ValidateMove(turn, playerNum).0
      modifies this, board
      ensures Valid() && board == old(board)
      ensures old(IsCapture(turn, playerNum)) ==>
        var t := old(Target(turn, playerNum));
        && board[t.y, t.x] == EmptyPiece
        && (forall r, c :: 0 <= r < 8 && 0 <= c < 8 && (r != t.y || c != t.x) ==>
              board[r, c] == old(board[r, c]))
        && piecePositions == old(piecePositions) - {old(PieceAt(t).id)}
        && (old(PieceAt(t).color) == White ==>
              whitePieceCount == old(whitePieceCount) - 1 && blackPieceCount == old(blackPieceCount))
        && (old(PieceAt(t).color) == Black ==>
              blackPieceCount == old(blackPieceCount) - 1 && whitePieceCount == old(whitePieceCount))
        && status == old(status)
        && msg == (if old(PieceAt(Origin(turn, playerNum)).color) == White then CapturedBlack else CapturedWhite)
      ensures !old(IsCapture(turn, playerNum)) ==>
        var from := old(Origin(turn, playerNum));
        var t := old(Target(turn, playerNum));
        && board[t.y, t.x] == old(board[from.y, from.x])
        && board[from.y, from.x] == EmptyPiece
        && (forall r, c ::
              (0 <= r < 8 && 0 <= c < 8 && (r != from.y || c != from.x) && (r != t.y || c != t.x)) ==>
              board[r, c] == old(board[r, c]))
        && piecePositions == old(piecePositions)[TruePieceID(turn.pieceID, playerNum) := t]
        && whitePieceCount == old(whitePieceCount) && blackPieceCount == old(blackPieceCount)
        && status == StatusFromCounts(whitePieceCount, blackPieceCount)
        && msg == ""
    {
      var truePieceID := TruePieceID(turn.pieceID, playerNum);
      var pieceCoords := piecePositions[truePieceID];
      var piece := board[pieceCoords.y, pieceCoords.x];
      var trueDirection := TrueDirection(turn.direction, playerNum);
      var targetSquare := ApplyMove(pieceCoords, trueDirection);
      var targetPiece := board[targetSquare.y, targetSquare.x];
      var isOpponentPieceOnDest := targetPiece.color != NoColor && targetPiece.color != piece.color;
      if isOpponentPieceOnDest {
        CapturePiece(targetSquare);
        if piece.color == White {
          return CapturedBlack;
        } else {
          return CapturedWhite;
        }
      }
      MovePiece(truePieceID, pieceCoords, targetSquare);
      status := StatusFromCounts(whitePieceCount, blackPieceCount);
      return "";
    }

    /**
      `ExecuteTurn` with the capture finished as evidently intended: the
      opponent's piece is removed, the capturing piece lands on the square
      beyond it, and the status is recomputed from the counters.
    */
    method ExecuteTurn(turn: CheckersTurn, playerNum: int) returns (msg: string)
      requires Valid() && ValidateMove(turn, playerNum).0
      modifies this, board
      ensures Valid() && board == old(board)
      ensures old(IsCapture(turn, playerNum)) ==>
        var from := old(Origin(turn, playerNum));
        var t := old(Target(turn, playerNum));
        var land := old(Landing(turn, playerNum));
        && board[land.y, land.x] == old(board[from.y, from.x])
        && board[t.y, t.x] == EmptyPiece
        && board[from.y, from.x] == EmptyPiece
        && (forall r, c ::
              (0 <= r < 8 && 0 <= c < 8 && (r != from.y || c != from.x) &&
               (r != t.y || c != t.x) && (r != land.y || c != land.x)) ==>
              board[r, c] == old(board[r, c]))
        && piecePositions == (old(piecePositions) - {old(PieceAt(t).id)})[TruePieceID(turn.pieceID, playerNum) := land]
        && (old(PieceAt(t).color) == White ==>
              whitePieceCount == old(whitePieceCount) - 1 && blackPieceCount == old(blackPieceCount))
        && (old(PieceAt(t).color) == Black ==>
              blackPieceCount == old(blackPieceCount) - 1 && whitePieceCount == old(whitePieceCount))
        && status == StatusFromCounts(whitePieceCount, blackPieceCount)
        && msg == (if old(PieceAt(from).color) == White then CapturedBlack else CapturedWhite)
      ensures !old(IsCapture(turn, playerNum)) ==>
        var from := old(Origin(turn, playerNum));
        var t := old(Target(turn, playerNum));
        && board[t.y, t.x] == old(board[from.y, from.x])
        && board[from.y, from.x] == EmptyPiece
        && (forall r, c ::
              (0 <= r < 8 && 0 <= c < 8 && (r != from.y || c != from.x) && (r != t.y || c != t.x)) ==>
              board[r, c] == old(board[r, c]))
        && piecePositions == old(piecePositions)[TruePieceID(turn.pieceID, playerNum) := t]
        && whitePieceCount == old(whitePieceCount) && blackPieceCount == old(blackPieceCount)
        && status == StatusFromCounts(whitePieceCount, blackPieceCount)
        && msg == ""
    {
      var truePieceID := TruePieceID(turn.pieceID, playerNum);
      var pieceCoords := piecePositions[truePieceID];
      var piece := board[pieceCoords.y, pieceCoords.x];
      var trueDirection := TrueDirection(turn.direction, playerNum);
      var targetSquare := ApplyMove(pieceCoords, trueDirection);
      var targetPiece := board[targetSquare.y, targetSquare.x];
      var isOpponentPieceOnDest := targetPiece.color != NoColor && targetPiece.color != piece.color;
      if isOpponentPieceOnDest {
        CapturePiece(targetSquare);
        var landing := ApplyMove(targetSquare, trueDirection);
        MovePiece(truePieceID, pieceCoords, landing);
        status := StatusFromCounts(whitePieceCount, blackPieceCount);
        if piece.color == White {
          return CapturedBlack;
        } else {
          return CapturedWhite;
        }
      }
      MovePiece(truePieceID, pieceCoords, targetSquare);
      status := StatusFromCounts(whitePieceCount, blackPieceCount);
      return "";
    }
  }

  /**
    A valid move of a piece that is not a king goes toward the opponent:
    player 2's black pieces toward row 7, everyone else's toward row 0.
  */
  lemma NonKingMovesForward(game: CheckersGame, turn: CheckersTurn, playerNum: int)
    requires game.Valid() && game.ValidateMove(turn, playerNum).0
    requires IsDirection(turn.direction)
    requires !game.PieceAt(game.Origin(turn, playerNum)).isKing
    ensures playerNum == 2 ==> game.Target(turn, playerNum).y == game.Origin(turn, playerNum).y + 1
    ensures playerNum != 2 ==> game.Target(turn, playerNum).y == game.Origin(turn, playerNum).y - 1
  {
  }

  /**
    With a direction number outside 0..3, player 2's turn passes the backward
    check, and mirroring turns it into Left: a black piece that is not a king
    steps toward row 0, backwards for black.
  */
  lemma UnnamedDirectionMovesBlackBackward(game: CheckersGame, turn: CheckersTurn)
    requires game.Valid() && game.ValidateMove(turn, 2).0
    requires !IsDirection(turn.direction)
    ensures game.Target(turn, 2).y == game.Origin(turn, 2).y - 1
  {
  }

  /**
    The capture slip, exhibited: after a capture as written, the capturing
    piece is still on its own square and the landing square is still empty.
  */
  method CaptureLeavesMoverInPlace(game: CheckersGame, turn: CheckersTurn, playerNum: int)
    requires game.Valid() && game.ValidateMove(turn, playerNum).0
    requires OnBoard(game.Target(turn, playerNum)) && game.IsCapture(turn, playerNum)
    modifies game, game.board
    ensures game.Valid() && game.board == old(game.board)
    ensures var from := old(game.Origin(turn, playerNum));
      OnBoard(from) && game.board[from.y, from.x] == old(game.board[from.y, from.x]) &&
      game.board[from.y, from.x] != EmptyPiece
    ensures var land := old(game.Landing(turn, playerNum));
      OnBoard(land) && game.board[land.y, land.x] == EmptyPiece
  {
    var msg := game.ExecuteTurnAsWritten(turn, playerNum);
  }
}
