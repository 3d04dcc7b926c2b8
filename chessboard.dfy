/**
 * The `ChessBoard` class of chessboard.cpp: an 8x8 array of squares, the side
 * to move, the en-passant target, the move history and the game status, with
 * the methods that query and update them. Each method is proved against the
 * value-level definitions of module GameRules.
 */
module Board {
  import opened Core
  import opened Pieces
  import opened Attacks
  import opened GameRules

  class ChessBoard {
    var board: array2<Option<Piece>>
    var currentTurn: Color
    var enPassantTarget: Point
    var moveHistory: seq<Move>
    var gameStatus: string
    var isGameOver: bool

    /** The board is 8x8, every piece knows its own square, and the en-passant target is well formed. */
    ghost predicate Valid()
      reads this, board
    {
      board.Length0 == 8 && board.Length1 == 8 &&
      WellFormed(GameState(Snapshot(board), currentTurn, enPassantTarget, moveHistory, gameStatus, isGameOver))
    }

    /** The object's fields as a value. */
    function State(): GameState
      requires board.Length0 == 8 && board.Length1 == 8
      reads this, board
    {
      GameState(Snapshot(board), currentTurn, enPassantTarget, moveHistory, gameStatus, isGameOver)
    }

    /** `ChessBoard()`: a null board, then `initializeBoard`. */
    constructor()
      ensures Valid() && State() == InitialState()
      ensures fresh(board)
    {
      board := new Option<Piece>[8, 8]((r, c) => None);
      currentTurn, enPassantTarget, isGameOver := White, NoSquare, false;
      moveHistory, gameStatus := [], "";
      new;
      InitializeBoard();
    }

    /** `clearBoard`: every square emptied. */
    method ClearBoard()
      requires board.Length0 == 8 && board.Length1 == 8
      modifies board
      ensures forall r, c :: 0 <= r < 8 && 0 <= c < 8 ==> board[r, c].None?
    {
      for i := 0 to 8
        invariant forall r, c :: 0 <= r < i && 0 <= c < 8 ==> board[r, c].None?
      {
        for j := 0 to 8
          invariant forall r, c :: ((0 <= r < i && 0 <= c < 8) || (r == i && 0 <= c < j)) ==> board[r, c].None?
        {
          board[i, j] := None;
        }
      }
    }

    /** `initializeBoard` (and `reset`, which only calls it): the starting position and a fresh game. */
    method InitializeBoard()
      requires board.Length0 == 8 && board.Length1 == 8
      modifies this, board
      ensures board == old(board)
      ensures Valid() && State() == InitialState()
    {
      ClearBoard();
      for col := 0 to 8
        invariant board == old(board)
        invariant forall r, c :: 0 <= r < 8 && 0 <= c < 8 ==>
          board[r, c] == (if (r == 1 || r == 6) && c < col then InitialCell(r, c) else None)
      {
        board[1, col] := Some(Piece(Pawn, Black, Point(col, 1), false));
        board[6, col] := Some(Piece(Pawn, White, Point(col, 6), false));
      }
      for col := 0 to 8
        invariant board == old(board)
        invariant forall r, c :: 0 <= r < 8 && 0 <= c < 8 ==>
          board[r, c] == (if r == 1 || r == 6 || ((r == 0 || r == 7) && c < col) then InitialCell(r, c) else None)
      {
        board[0, col] := Some(Piece(BackRank[col], Black, Point(col, 0), false));
        board[7, col] := Some(Piece(BackRank[col], White, Point(col, 7), false));
      }
      currentTurn := White;
      enPassantTarget := NoSquare;
      moveHistory := [];
      isGameOver := false;
      gameStatus := "Game in progress";
      GridExt(Snapshot(board), InitialGrid());
    }

    /** One assignment `m_board[row][col] = v`. */
    method Put(row: int, col: int, v: Option<Piece>)
      requires board.Length0 == 8 && board.Length1 == 8 && IsValidPosition(row, col)
      modifies board
      ensures Snapshot(board) == Place(old(Snapshot(board)), row, col, v)
    {
      ghost var g := Snapshot(board);
      board[row, col] := v;
      GridExt(Snapshot(board), Place(g, row, col, v));
    }

    /** `getPieceAt(row, col)`: null off the board, otherwise the square's content. */
    method GetPieceAt(row: int, col: int) returns (piece: Option<Piece>)
      requires Valid()
      ensures !IsValidPosition(row, col) ==> piece.None?
      ensures IsValidPosition(row, col) ==> piece == board[row, col]
    {
      if !IsValidPosition(row, col) {
        return None;
      }
      return board[row, col];
    }

    /** `canMove(from, to)`: a piece of the side to move on `from` whose rule accepts `to`. */
    method CanMove(from: Point, to: Point) returns (ok: bool)
      requires Valid()
      ensures ok == Movable(State(), from, to)
    {
      var piece := GetPieceAt(from.y, from.x);
      if piece.None? {
        return false;
      }
      if piece.value.color != currentTurn {
        return false;
      }
      ok := IsValidMove(board, enPassantTarget, piece.value, to);
    }

    /** `switchTurn`. */
    method SwitchTurn()
      modifies this
      ensures currentTurn == Opposite(old(currentTurn)) && currentTurn != old(currentTurn)
      ensures board == old(board) && enPassantTarget == old(enPassantTarget)
      ensures moveHistory == old(moveHistory) && gameStatus == old(gameStatus) && isGameOver == old(isGameOver)
    {
      currentTurn := if currentTurn == White then Black else White;
    }

    /** `findKing(color)`: the same scan as `findKingOnBoard`, on the live board. */
    method FindKing(color: Color) returns (p: Point)
      requires Valid()
      ensures p == Attacks.FindKing(Snapshot(board), color)
    {
      p := FindKingOnBoard(board, color);
    }

    /** `isKingInCheck(color)`. */
    method IsKingInCheck(color: Color) returns (r: bool)
      requires Valid()
      ensures r == InCheck(Snapshot(board), color)
    {
      var kingPos := FindKing(color);
      if kingPos.x == -1 {
        return false;
      }
      r := IsSquareAttacked(board, kingPos, Opposite(color));
    }

    /**
     * `wouldBeInCheck(from, to, color)`: copies the board into a fresh array,
     * plays the move there and asks whether the king is attacked. The live
     * board is not modified.
     */
    method WouldBeInCheck(from: Point, to: Point, color: Color) returns (r: bool)
      requires Valid()
      requires IsValidPosition(from.y, from.x) && IsValidPosition(to.y, to.x)
      ensures r == LeavesKingInCheck(Snapshot(board), from, to, color)
    {
      ghost var g := Snapshot(board);
      var tmp := new Option<Piece>[8, 8]((r, c) => None);
      for r := 0 to 8
        invariant forall i, j :: 0 <= i < r && 0 <= j < 8 ==> tmp[i, j] == board[i, j]
      {
        for c := 0 to 8
          invariant forall i, j :: ((0 <= i < r && 0 <= j < 8) || (i == r && 0 <= j < c)) ==> tmp[i, j] == board[i, j]
        {
          tmp[r, c] := board[r, c];
        }
      }
      GridExt(Snapshot(tmp), g);
      var moving := tmp[from.y, from.x];
      if moving.None? {
        return false;
      }
      tmp[to.y, to.x] := moving;
      tmp[from.y, from.x] := None;
      GridExt(Snapshot(tmp), Simulate(g, from, to));
      var kingPos;
      if moving.value.kind == King {
        kingPos := to;
      } else {
        kingPos := FindKingOnBoard(tmp, color);
      }
      if kingPos.x == -1 {
        return false;
      }
      r := IsSquareAttacked(tmp, kingPos, Opposite(color));
    }

    /** `hasAnyValidMoves(color)`: every (from, to) pair, stopping at the first legal one. */
    method HasAnyValidMoves(color: Color) returns (r: bool)
      requires Valid()
      ensures r == HasLegalMove(Snapshot(board), enPassantTarget, color)
    {
      ghost var g := Snapshot(board);
      for fromRow := 0 to 8
        invariant forall a, b :: 0 <= a < fromRow && 0 <= b < 8 ==> !MovesFrom(g, enPassantTarget, color, a, b)
      {
        for fromCol := 0 to 8
          invariant forall a, b :: ((0 <= a < fromRow && 0 <= b < 8) || (a == fromRow && 0 <= b < fromCol)) ==>
            !MovesFrom(g, enPassantTarget, color, a, b)
        {
          var piece := board[fromRow, fromCol];
          if piece.None? || piece.value.color != color {
            continue;
          }
          for toRow := 0 to 8
            invariant forall x, y :: 0 <= x < toRow && 0 <= y < 8 ==>
              !LegalAt(g, enPassantTarget, color, fromRow, fromCol, x, y)
          {
            for toCol := 0 to 8
              invariant forall x, y :: ((0 <= x < toRow && 0 <= y < 8) || (x == toRow && 0 <= y < toCol)) ==>
                !LegalAt(g, enPassantTarget, color, fromRow, fromCol, x, y)
            {
              var from, to := Point(fromCol, fromRow), Point(toCol, toRow);
              var valid := IsValidMove(board, enPassantTarget, piece.value, to);
              if valid {
                var check := WouldBeInCheck(from, to, color);
                if !check {
                  assert LegalAt(g, enPassantTarget, color, fromRow, fromCol, toRow, toCol);
                  assert MovesFrom(g, enPassantTarget, color, fromRow, fromCol);
                  return true;
                }
              }
            }
          }
        }
      }
      return false;
    }

    /** `isCheckmate(color)`: in check and without a legal move. */
    method IsCheckmate(color: Color) returns (r: bool)
      requires Valid()
      ensures r == Checkmated(Snapshot(board), enPassantTarget, color)
    {
      var check := IsKingInCheck(color);
      if !check {
        return false;
      }
      var any := HasAnyValidMoves(color);
      return !any;
    }

    /** `isStalemate(color)`: not in check and without a legal move. */
    method IsStalemate(color: Color) returns (r: bool)
      requires Valid()
      ensures r == Stalemated(Snapshot(board), enPassantTarget, color)
    {
      var check := IsKingInCheck(color);
      if check {
        return false;
      }
      var any := HasAnyValidMoves(color);
      return !any;
    }

    /** `canCastle(color, kingSide)`. */
    method CanCastle(color: Color, kingSide: bool) returns (r: bool)
      requires Valid()
      ensures r == CastlingAllowed(Snapshot(board), color, kingSide)
    {
      ghost var g := Snapshot(board);
      var row := if color == White then 7 else 0;
      var kingCol := 4;
      var rookCol := if kingSide then 7 else 0;
      var king := board[row, kingCol];
      var rook := board[row, rookCol];
      if king.None? || king.value.kind != King || king.value.hasMoved {
        return false;
      }
      if rook.None? || rook.value.kind != Rook || rook.value.hasMoved {
        return false;
      }
      var check := IsKingInCheck(color);
      if check {
        return false;
      }
      var start := if kingSide then kingCol + 1 else rookCol + 1;
      var end := if kingSide then rookCol else kingCol;
      var empty := SquaresEmpty(row, start, end);
      if !empty {
        return false;
      }
      var safe := KingPathSafe(color, kingSide);
      return safe;
    }

    /** The `for (int col = start; col < end; ++col)` loop of `canCastle`: no piece between king and rook. */
    method SquaresEmpty(row: int, start: int, end: int) returns (empty: bool)
      requires Valid() && 0 <= row < 8 && 0 <= start <= end <= 8
      ensures empty == forall k :: start <= k < end ==> Snapshot(board)[row][k].None?
    {
      for col := start to end
        invariant forall k :: start <= k < col ==> board[row, k].None?
      {
        if board[row, col] != None {
          return false;
        }
      }
      return true;
    }

    /**
     * The `for (int i = 0; i <= 2; ++i)` loop of `canCastle`: `wouldBeInCheck`
     * for the king moving 0, 1 and 2 columns towards the rook.
     */
    method KingPathSafe(color: Color, kingSide: bool) returns (safe: bool)
      requires Valid()
      ensures safe == forall i :: 0 <= i < 3 ==>
        !LeavesKingInCheck(Snapshot(board), Point(4, HomeRow(color)), CastlingSquare(color, kingSide, i), color)
    {
      var row := if color == White then 7 else 0;
      var kingCol := 4;
      for i := 0 to 3
        invariant forall j :: 0 <= j < i ==>
          !LeavesKingInCheck(Snapshot(board), Point(kingCol, row), CastlingSquare(color, kingSide, j), color)
      {
        var pos := Point(if kingSide then kingCol + i else kingCol - i, row);
        assert pos == CastlingSquare(color, kingSide, i);
        var check := WouldBeInCheck(Point(kingCol, row), pos, color);
        if check {
          return false;
        }
      }
      return true;
    }

    /** `performCastling(color, kingSide)`: king and rook moved on the home row. */
    method PerformCastling(color: Color, kingSide: bool)
      requires board.Length0 == 8 && board.Length1 == 8
      modifies board
      ensures Snapshot(board) == Castled(old(Snapshot(board)), color, kingSide)
    {
      ghost var g := Snapshot(board);
      var row := if color == White then 7 else 0;
      var kingCol := 4;
      var rookCol := if kingSide then 7 else 0;
      var newKingCol := if kingSide then 6 else 2;
      var newRookCol := if kingSide then 5 else 3;
      var king := board[row, kingCol];
      var rook := board[row, rookCol];
      Put(row, newKingCol, Relocated(king, Point(newKingCol, row)));
      Put(row, kingCol, None);
      Put(row, newRookCol, Relocated(rook, Point(newRookCol, row)));
      Put(row, rookCol, None);
    }

    /**
     * The tail shared by the three ways `movePiece` finishes a move: append the
     * record, switch the turn, and set the status. The turn has already been
     * switched when the status is computed, so the colour examined is the one
     * that just moved.
     */
    method Finish(m: Move)
      requires Valid()
      modifies this
      ensures board == old(board) && Valid()
      ensures currentTurn == Opposite(old(currentTurn)) && enPassantTarget == old(enPassantTarget)
      ensures moveHistory == old(moveHistory) + [m]
      ensures gameStatus == StatusAfter(Snapshot(board), enPassantTarget, old(currentTurn))
      ensures isGameOver == (old(isGameOver) || GameEnds(Snapshot(board), enPassantTarget, old(currentTurn)))
    {
      moveHistory := moveHistory + [m];
      SwitchTurn();
      var opponentColor := if currentTurn == White then Black else White;
      var status, over := Evaluate(opponentColor);
      gameStatus := status;
      isGameOver := isGameOver || over;
    }

    /**
     * The checkmate / stalemate / check cascade of `movePiece` for the colour
     * that just moved, as the status text and whether the game ends.
     */
    method Evaluate(mover: Color) returns (status: string, over: bool)
      requires Valid()
      ensures status == StatusAfter(Snapshot(board), enPassantTarget, mover)
      ensures over == GameEnds(Snapshot(board), enPassantTarget, mover)
    {
      var mate := IsCheckmate(mover);
      if mate {
        return (if mover == Black then "Black wins by checkmate!" else "White wins by checkmate!"), true;
      }
      var stale := IsStalemate(mover);
      if stale {
        return "Stalemate - Draw!", true;
      }
      var check := IsKingInCheck(mover);
      if check {
        status := if mover == White then "White is in check!" else "Black is in check!";
      } else {
        status := "Game in progress";
      }
      return status, false;
    }

    /**
     * `movePiece(from, to, checkOnly)`: false, with nothing changed, unless the
     * move is legal; with `checkOnly` true for a legal move and nothing
     * changed; otherwise the move is played as `Step` describes.
     */
    method MovePiece(from: Point, to: Point, checkOnly: bool) returns (ok: bool)
      requires Valid()
      modifies this, board
      ensures board == old(board) && Valid()
      ensures ok == Legal(old(State()), from, to)
      ensures ok && !checkOnly ==> State() == Step(old(State()), from, to)
      ensures !ok || checkOnly ==> State() == old(State())
    {
      var piece := GetPieceAt(from.y, from.x);
      if piece.None? {
        return false;
      }
      var p := piece.value;
      if p.color != currentTurn {
        return false;
      }
      var valid := IsValidMove(board, enPassantTarget, p, to);
      if !valid {
        return false;
      }
      RulesRejectOffBoardAndOwnSquare(Snapshot(board), enPassantTarget, p, to);
      var inCheck := WouldBeInCheck(from, to, currentTurn);
      if inCheck {
        return false;
      }
      if checkOnly {
        return true;
      }
      ExecuteMove(from, to);
      return true;
    }

    /** The part of `movePiece` after validation: the board update, then `Finish`. */
    method ExecuteMove(from: Point, to: Point)
      requires Valid() && Legal(State(), from, to)
      modifies this, board
      ensures board == old(board) && Valid()
      ensures State() == Step(old(State()), from, to)
    {
      ghost var s := State();
      var m := UpdateBoard(from, to);
      StepKeepsWellFormed(s, from, to);
      Finish(m);
    }

    /**
     * The first board update of `movePiece`: a pawn moving onto the en-passant
     * target removes the pawn behind it. Returns what the history records as
     * captured and whether this was an en-passant capture.
     */
    method TakeEnPassant(from: Point, to: Point) returns (captured: Option<Piece>, wasEnPassant: bool)
      requires board.Length0 == 8 && board.Length1 == 8
      requires EpWellFormed(enPassantTarget) && Playable(State(), from, to)
      modifies board
      ensures Snapshot(board) == AfterCapture(old(State()), from, to)
      ensures captured == Record(old(State()), from, to).captured
      ensures wasEnPassant == IsEnPassant(old(State()), old(board[from.y, from.x]).value, to)
    {
      var p := board[from.y, from.x].value;
      captured := board[to.y, to.x];
      wasEnPassant := false;
      if p.kind == Pawn && to == enPassantTarget {
        var captureRow := if p.color == White then to.y + 1 else to.y - 1;
        captured := board[captureRow, to.x];
        wasEnPassant := true;
        Put(captureRow, to.x, None);
      }
    }

    /**
     * The board and en-passant updates of `movePiece`: the en-passant capture,
     * then promotion, castling or the plain move. Returns the history record.
     */
    method UpdateBoard(from: Point, to: Point) returns (m: Move)
      requires board.Length0 == 8 && board.Length1 == 8
      requires EpWellFormed(enPassantTarget) && Playable(State(), from, to)
      modifies this, board
      ensures board == old(board)
      ensures Snapshot(board) == MovedGrid(old(State()), from, to)
      ensures enPassantTarget == NextEp(old(State()), from, to)
      ensures m == Record(old(State()), from, to)
      ensures currentTurn == old(currentTurn) && moveHistory == old(moveHistory)
      ensures gameStatus == old(gameStatus) && isGameOver == old(isGameOver)
    {
      var p := board[from.y, from.x].value;
      var captured, wasEnPassant := TakeEnPassant(from, to);
      var dy := to.y - from.y;
      enPassantTarget := if p.kind == Pawn && Abs(dy) == 2 then Point(from.x, from.y + dy / 2) else NoSquare;
      var promotion, castling := RelocateOnBoard(from, to, p, currentTurn);
      m := Move(from, to, captured, castling, wasEnPassant, promotion, Queen, false, NoSquare, Pawn, White);
    }

    /**
     * The three ways `movePiece` moves the piece `p` of colour `c`: promotion to
     * a queen, castling, or the plain move. Returns which of the first two it was.
     */
    method RelocateOnBoard(from: Point, to: Point, p: Piece, c: Color) returns (promotion: bool, castling: bool)
      requires board.Length0 == 8 && board.Length1 == 8
      requires IsValidPosition(from.y, from.x) && IsValidPosition(to.y, to.x)
      modifies board
      ensures Snapshot(board) == Relocate(old(Snapshot(board)), c, p, from, to)
      ensures promotion == IsPromotion(p, to)
      ensures castling == (!IsPromotion(p, to) && IsCastling(p, from, to))
    {
      if p.kind == Pawn && ((p.color == White && to.y == 0) || (p.color == Black && to.y == 7)) {
        Put(from.y, from.x, None);
        Put(to.y, to.x, Some(Piece(Queen, c, to, true)));
        return true, false;
      }
      if p.kind == King && Abs(to.x - from.x) == 2 {
        PerformCastling(c, to.x > from.x);
        return false, true;
      }
      Put(to.y, to.x, Some(p.(pos := to, hasMoved := true)));
      Put(from.y, from.x, None);
      return false, false;
    }
  }
}
