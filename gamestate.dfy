/**
 * The game state of chessboard.cpp as a value, and what one move does to it.
 *
 * `GameState` holds the fields of `ChessBoard` (board contents, side to move,
 * en-passant target, history, status text, game-over flag); `Step` is the
 * state a successful `movePiece` leaves behind. The `ChessBoard` class is
 * proved to follow these functions, and the properties of a move are proved
 * here about them.
 */
module GameRules {
  import opened Core
  import opened Pieces
  import opened Attacks

  /** The history record `Move` of chessboard.h; the captured piece is kept as a value. */
  datatype Move = Move(
    from: Point, to: Point, captured: Option<Piece>,
    wasCastling: bool, wasEnPassant: bool, wasPromotion: bool, promotedTo: Kind,
    movedPieceHadMoved: bool, previousEnPassantTarget: Point,
    movedPieceType: Kind, movedPieceColor: Color)

  datatype GameState = GameState(
    grid: Grid, turn: Color, ep: Point, history: seq<Move>, status: string, over: bool)

  // ---------------------------------------------------------------------------
  // initializeBoard
  // ---------------------------------------------------------------------------

  /** The piece types of a back rank, by column. */
  const BackRank: seq<Kind> := [Rook, Knight, Bishop, Queen, King, Bishop, Knight, Rook]

  /** What `initializeBoard` puts on square [row][col]. */
  function InitialCell(row: int, col: int): Option<Piece>
    requires IsValidPosition(row, col)
  {
    if row == 1 then Some(Piece(Pawn, Black, Point(col, row), false))
    else if row == 6 then Some(Piece(Pawn, White, Point(col, row), false))
    else if row == 0 then Some(Piece(BackRank[col], Black, Point(col, row), false))
    else if row == 7 then Some(Piece(BackRank[col], White, Point(col, row), false))
    else None
  }

  /**
   * The starting position: 32 pieces on rows 0, 1, 6 and 7, Black on rows
   * 0-1 and White on rows 6-7, pawns on rows 1 and 6, the kings on [0][4]
   * and [7][4], nothing moved, every piece at its own square.
   */
  function InitialGrid(): (g: Grid)
    ensures forall r, c :: 0 <= r < 8 && 0 <= c < 8 ==>
      (g[r][c].Some? <==> r == 0 || r == 1 || r == 6 || r == 7)
    ensures forall r, c :: 0 <= r < 8 && 0 <= c < 8 && g[r][c].Some? ==>
      g[r][c].value.color == (if r <= 1 then Black else White) && !g[r][c].value.hasMoved
    ensures forall c :: 0 <= c < 8 ==> IsA(g[1][c], Pawn, Black) && IsA(g[6][c], Pawn, White)
    ensures IsA(g[0][4], King, Black) && IsA(g[7][4], King, White)
    ensures forall r, c :: 0 <= r < 8 && 0 <= c < 8 && g[r][c].Some? && g[r][c].value.kind == King ==>
      (r, c) == (0, 4) || (r, c) == (7, 4)
    ensures PositionsConsistent(g)
  {
    seq(8, (r: int) requires 0 <= r < 8 => seq(8, (c: int) requires 0 <= c < 8 => InitialCell(r, c)))
  }

  /** The state after the constructor or `initializeBoard`. */
  function InitialState(): GameState
  {
    GameState(InitialGrid(), White, NoSquare, [], "Game in progress", false)
  }

  // ---------------------------------------------------------------------------
  // Invariants
  // ---------------------------------------------------------------------------

  /**
   * The en-passant target is (-1, -1) or a square strictly inside rows 1..6,
   * so the square of the pawn captured behind it is always on the board.
   */
  predicate EpWellFormed(ep: Point)
  {
    ep == NoSquare || (0 <= ep.x < 8 && 1 <= ep.y <= 6)
  }

  predicate WellFormed(s: GameState)
  {
    PositionsConsistent(s.grid) && EpWellFormed(s.ep)
  }

  // ---------------------------------------------------------------------------
  // hasAnyValidMoves, isCheckmate, isStalemate, canCastle
  // ---------------------------------------------------------------------------

  /** The body of the four nested loops of `hasAnyValidMoves` for one (from, to) pair. */
  predicate LegalAt(g: Grid, ep: Point, c: Color, fr: int, fc: int, tr: int, tc: int)
    requires IsValidPosition(fr, fc) && IsValidPosition(tr, tc)
  {
    g[fr][fc].Some? && g[fr][fc].value.color == c &&
    MoveRule(g, ep, g[fr][fc].value, Point(tc, tr)) &&
    !LeavesKingInCheck(g, Point(fc, fr), Point(tc, tr), c)
  }

  /** Some target square is a legal move for the piece on [fr][fc]. */
  predicate MovesFrom(g: Grid, ep: Point, c: Color, fr: int, fc: int)
    requires IsValidPosition(fr, fc)
  {
    exists tr, tc :: 0 <= tr < 8 && 0 <= tc < 8 && LegalAt(g, ep, c, fr, fc, tr, tc)
  }

  /** `hasAnyValidMoves(color)`. */
  predicate HasLegalMove(g: Grid, ep: Point, c: Color)
  {
    exists fr, fc :: 0 <= fr < 8 && 0 <= fc < 8 && MovesFrom(g, ep, c, fr, fc)
  }

  /** `isCheckmate(color)`. */
  predicate Checkmated(g: Grid, ep: Point, c: Color)
  {
    InCheck(g, c) && !HasLegalMove(g, ep, c)
  }

  /** `isStalemate(color)`. */
  predicate Stalemated(g: Grid, ep: Point, c: Color)
  {
    !InCheck(g, c) && !HasLegalMove(g, ep, c)
  }

  /** The back rank of a colour: 7 for White, 0 for Black. */
  function HomeRow(c: Color): int
  {
    if c == White then 7 else 0
  }

  /** `kingCol + i * direction` for the i-th square of the castling check. */
  function CastlingSquare(c: Color, kingSide: bool, i: int): Point
  {
    Point(if kingSide then 4 + i else 4 - i, HomeRow(c))
  }

  /**
   * `canCastle(color, kingSide)`: an unmoved king on column 4 and an unmoved
   * rook on the corner of the home row (their colours are not checked), the
   * king not in check, the squares between them empty, and `wouldBeInCheck`
   * false for the king moving 0, 1 and 2 columns towards the rook.
   */
  predicate CastlingAllowed(g: Grid, c: Color, kingSide: bool)
  {
    var row := HomeRow(c);
    var rookCol := if kingSide then 7 else 0;
    var start := if kingSide then 5 else 1;
    var end := if kingSide then 7 else 4;
    g[row][4].Some? && g[row][4].value.kind == King && !g[row][4].value.hasMoved &&
    g[row][rookCol].Some? && g[row][rookCol].value.kind == Rook && !g[row][rookCol].value.hasMoved &&
    !InCheck(g, c) &&
    (forall k :: start <= k < end ==> g[row][k].None?) &&
    forall i :: 0 <= i < 3 ==> !LeavesKingInCheck(g, Point(4, row), CastlingSquare(c, kingSide, i), c)
  }

  // ---------------------------------------------------------------------------
  // performCastling
  // ---------------------------------------------------------------------------

  /** A piece after `setPosition(pos)` and `setMoved(true)`; an empty square stays empty. */
  function Relocated(o: Option<Piece>, pos: Point): Option<Piece>
  {
    if o.None? then None else Some(o.value.(pos := pos, hasMoved := true))
  }

  /**
   * `performCastling(color, kingSide)` on the home row: the square [row][4]
   * goes to column 6 (or 2), the corner square to column 5 (or 3), and both
   * origins are emptied.
   */
  function Castled(g: Grid, c: Color, kingSide: bool): Grid
  {
    var row := HomeRow(c);
    var rookCol := if kingSide then 7 else 0;
    var newKingCol := if kingSide then 6 else 2;
    var newRookCol := if kingSide then 5 else 3;
    var king := g[row][4];
    var rook := g[row][rookCol];
    var g1 := Place(Place(g, row, newKingCol, Relocated(king, Point(newKingCol, row))), row, 4, None);
    Place(Place(g1, row, newRookCol, Relocated(rook, Point(newRookCol, row))), row, rookCol, None)
  }

  /** The rows other than the home row, and the home-row squares castling does not touch, keep their contents. */
  lemma CastledTouchesOnlyFourSquares(g: Grid, c: Color, kingSide: bool)
    ensures var h := Castled(g, c, kingSide);
      forall r, k :: 0 <= r < 8 && 0 <= k < 8 && (r != HomeRow(c) || !(k in CastlingColumns(kingSide))) ==>
        h[r][k] == g[r][k]
  {
  }

  function CastlingColumns(kingSide: bool): set<int>
  {
    if kingSide then {4, 5, 6, 7} else {0, 2, 3, 4}
  }

  /**
   * With the king on [row][4] and the rook in the corner, castling lands the
   * king on column 6 (2) and the rook on column 5 (3), both moved and with
   * their stored positions equal to their new squares, and empties columns 4
   * and 7 (0).
   */
  lemma CastlingResult(g: Grid, c: Color, kingSide: bool)
    requires var row := HomeRow(c);
      g[row][4].Some? && g[row][if kingSide then 7 else 0].Some?
    ensures var row, h := HomeRow(c), Castled(g, c, kingSide);
      var newKingCol, newRookCol, rookCol := (if kingSide then 6 else 2), (if kingSide then 5 else 3), (if kingSide then 7 else 0);
      h[row][newKingCol] == Some(g[row][4].value.(pos := Point(newKingCol, row), hasMoved := true)) &&
      h[row][newRookCol] == Some(g[row][rookCol].value.(pos := Point(newRookCol, row), hasMoved := true)) &&
      h[row][4].None? && h[row][rookCol].None?
  {
  }

  // ---------------------------------------------------------------------------
  // movePiece
  // ---------------------------------------------------------------------------

  /** `canMove(from, to)`: a piece of the side to move on `from` whose rule accepts `to`. */
  predicate Movable(s: GameState, from: Point, to: Point)
  {
    var o := PieceAtPoint(s.grid, from);
    o.Some? && o.value.color == s.turn && MoveRule(s.grid, s.ep, o.value, to)
  }

  /**
   * The validation at the head of `movePiece`: a piece on `from` of the side
   * to move, its rule accepts `to`, and `wouldBeInCheck` is false.
   */
  predicate Legal(s: GameState, from: Point, to: Point)
  {
    Movable(s, from, to) && IsValidPosition(to.y, to.x) &&
    !LeavesKingInCheck(s.grid, from, to, s.turn)
  }

  /** An en-passant capture: a pawn moving onto the en-passant target. */
  predicate IsEnPassant(s: GameState, p: Piece, to: Point)
  {
    p.kind == Pawn && to == s.ep
  }

  /** The row of the pawn taken en passant: behind the target as seen by the mover. */
  function CaptureRow(p: Piece, to: Point): int
  {
    if p.color == White then to.y + 1 else to.y - 1
  }

  predicate IsPromotion(p: Piece, to: Point)
  {
    p.kind == Pawn && ((p.color == White && to.y == 0) || (p.color == Black && to.y == 7))
  }

  predicate IsCastling(p: Piece, from: Point, to: Point)
  {
    p.kind == King && Abs(to.x - from.x) == 2
  }

  /** The status text set at the end of `movePiece`; `mover` is the colour that just moved. */
  function StatusAfter(g: Grid, ep: Point, mover: Color): string
  {
    if Checkmated(g, ep, mover) then
      (if Opposite(mover) == White then "Black wins by checkmate!" else "White wins by checkmate!")
    else if Stalemated(g, ep, mover) then "Stalemate - Draw!"
    else if InCheck(g, mover) then
      (if mover == White then "White is in check!" else "Black is in check!")
    else "Game in progress"
  }

  /** The game is over after the move: the mover is checkmated or stalemated. */
  predicate GameEnds(g: Grid, ep: Point, mover: Color)
  {
    Checkmated(g, ep, mover) || Stalemated(g, ep, mover)
  }

  /** What the board update of `movePiece` needs: a piece on `from`, and `to` on the board. */
  predicate Playable(s: GameState, from: Point, to: Point)
  {
    IsValidPosition(from.y, from.x) && IsValidPosition(to.y, to.x) && s.grid[from.y][from.x].Some?
  }

  /** The board after an en-passant capture has removed the pawn behind the target (unchanged otherwise). */
  function AfterCapture(s: GameState, from: Point, to: Point): Grid
    requires EpWellFormed(s.ep) && Playable(s, from, to)
  {
    var p := s.grid[from.y][from.x].value;
    if IsEnPassant(s, p, to) then Place(s.grid, CaptureRow(p, to), to.x, None) else s.grid
  }

  /** The board after the piece moves, before the turn switch. */
  function MovedGrid(s: GameState, from: Point, to: Point): Grid
    requires EpWellFormed(s.ep) && Playable(s, from, to)
  {
    Relocate(AfterCapture(s, from, to), s.turn, s.grid[from.y][from.x].value, from, to)
  }

  /**
   * The piece `p` of the side `c` to move leaves `from` for `to` on `g`: a pawn
   * reaching the far row becomes a queen, a king moving two columns castles,
   * any other piece is carried over with its position and moved flag updated.
   */
  function Relocate(g: Grid, c: Color, p: Piece, from: Point, to: Point): Grid
    requires IsValidPosition(from.y, from.x) && IsValidPosition(to.y, to.x)
  {
    if IsPromotion(p, to) then
      Place(Place(g, from.y, from.x, None), to.y, to.x, Some(Piece(Queen, c, to, true)))
    else if IsCastling(p, from, to) then
      Castled(g, c, to.x > from.x)
    else
      Place(Place(g, to.y, to.x, Some(p.(pos := to, hasMoved := true))), from.y, from.x, None)
  }

  /** The en-passant target after the move: the skipped square of a two-row pawn move, else (-1, -1). */
  function NextEp(s: GameState, from: Point, to: Point): Point
    requires EpWellFormed(s.ep) && Playable(s, from, to)
  {
    var p := s.grid[from.y][from.x].value;
    var dy := to.y - from.y;
    if p.kind == Pawn && Abs(dy) == 2 then Point(from.x, from.y + dy / 2) else NoSquare
  }

  /** The history entry `movePiece` appends. */
  function Record(s: GameState, from: Point, to: Point): Move
    requires EpWellFormed(s.ep) && Playable(s, from, to)
  {
    var p := s.grid[from.y][from.x].value;
    var ep := IsEnPassant(s, p, to);
    var captured := if ep then s.grid[CaptureRow(p, to)][to.x] else s.grid[to.y][to.x];
    var promo := IsPromotion(p, to);
    var castle := !promo && IsCastling(p, from, to);
    Move(from, to, captured, castle, ep, promo, Queen, false, NoSquare, Pawn, White)
  }

  /** The state a successful `movePiece(from, to)` leaves. */
  function Step(s: GameState, from: Point, to: Point): GameState
    requires WellFormed(s) && Legal(s, from, to)
  {
    var g := MovedGrid(s, from, to);
    var ep := NextEp(s, from, to);
    var mover := s.turn;
    GameState(g, Opposite(mover), ep, s.history + [Record(s, from, to)],
              StatusAfter(g, ep, mover),
              s.over || GameEnds(g, ep, mover))
  }

  // ---------------------------------------------------------------------------
  // What a move does
  // ---------------------------------------------------------------------------

  /**
   * A move keeps the invariants: every piece, the moved one included, stores
   * the square it stands on, and the new en-passant target is well formed.
   */
  lemma StepKeepsWellFormed(s: GameState, from: Point, to: Point)
    requires WellFormed(s) && Playable(s, from, to)
    ensures PositionsConsistent(MovedGrid(s, from, to)) && EpWellFormed(NextEp(s, from, to))
  {
    var p := s.grid[from.y][from.x].value;
    var g1 := AfterCapture(s, from, to);
    assert PositionsConsistent(g1);
    if IsCastling(p, from, to) && !IsPromotion(p, to) {
      var c, kingSide := s.turn, to.x > from.x;
      var row := HomeRow(c);
      var rookCol := if kingSide then 7 else 0;
      var newKingCol := if kingSide then 6 else 2;
      var newRookCol := if kingSide then 5 else 3;
      var h1 := Place(Place(g1, row, newKingCol, Relocated(g1[row][4], Point(newKingCol, row))), row, 4, None);
      assert PositionsConsistent(h1);
      var h2 := Place(Place(h1, row, newRookCol, Relocated(g1[row][rookCol], Point(newRookCol, row))), row, rookCol, None);
      assert h2 == Castled(g1, c, kingSide);
    }
  }
}
