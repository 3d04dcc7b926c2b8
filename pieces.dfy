/**
 * The per-piece move rules of chesspiece.cpp.
 *
 * Each rule looks at the board only through `isValidPosition`, `getPieceAt`
 * and `getEnPassantTarget`, so here a rule takes the board contents (a Grid,
 * or the 8x8 array in the methods that walk a path) and the en-passant target.
 * A piece judges a move from its own stored position `pos`.
 */
module Pieces {
  import opened Core

  // ---------------------------------------------------------------------------
  // getSymbol
  // ---------------------------------------------------------------------------

  /** The symbol table: one row per piece type in declaration order, White then Black. */
  const Symbols: seq<seq<string>> := [
    ["\U{2659}", "\U{265F}"],  // pawn
    ["\U{2656}", "\U{265C}"],  // rook
    ["\U{2658}", "\U{265E}"],  // knight
    ["\U{2657}", "\U{265D}"],  // bishop
    ["\U{2655}", "\U{265B}"],  // queen
    ["\U{2654}", "\U{265A}"]   // king
  ]

  /** `static_cast<int>(m_type)`. */
  function KindIndex(k: Kind): nat
  {
    match k
    case Pawn => 0
    case Rook => 1
    case Knight => 2
    case Bishop => 3
    case Queen => 4
    case King => 5
  }

  function ColorIndex(c: Color): nat
  {
    if c == White then 0 else 1
  }

  /** `ChessPiece::getSymbol`: the table entry at [type][colour]. */
  function Symbol(p: Piece): (s: string)
    ensures |s| == 1
    ensures p.color == White <==> '\U{2654}' <= s[0] <= '\U{2659}'
  {
    Symbols[KindIndex(p.kind)][ColorIndex(p.color)]
  }

  /** Every (type, colour) pair has its own glyph. */
  lemma SymbolDeterminesPiece(p: Piece, q: Piece)
    ensures Symbol(p) == Symbol(q) <==> p.kind == q.kind && p.color == q.color
  {
    if Symbol(p) == Symbol(q) {
      assert Symbol(p)[0] == Symbol(q)[0];
    }
  }

  // ---------------------------------------------------------------------------
  // Rules that are plain expressions: pawn, knight, king
  // ---------------------------------------------------------------------------

  /** The row direction a pawn advances in: White moves towards row 0. */
  function Forward(c: Color): int
  {
    if c == White then -1 else 1
  }

  /** The target square holds a piece of the mover's own colour. */
  predicate OwnPieceAt(g: Grid, p: Piece, to: Point)
  {
    PieceAtPoint(g, to).Some? && PieceAtPoint(g, to).value.color == p.color
  }

  /** `Pawn::isValidMove`. */
  predicate PawnIsValidMove(g: Grid, ep: Point, p: Piece, to: Point)
  {
    IsValidPosition(to.y, to.x) && to != p.pos &&
    var dir := Forward(p.color);
    var dy := to.y - p.pos.y;
    var dx := to.x - p.pos.x;
    var target := PieceAtPoint(g, to);
    if dx == 0 then
      (dy == dir && target.None?) ||
      (dy == 2 * dir && !p.hasMoved && target.None? &&
       PieceAtPoint(g, Point(p.pos.x, p.pos.y + dir)).None?)
    else if Abs(dx) == 1 && dy == dir then
      (target.Some? && target.value.color != p.color) || to == ep
    else
      false
  }

  /** `Knight::isValidMove`. */
  predicate KnightIsValidMove(g: Grid, p: Piece, to: Point)
  {
    IsValidPosition(to.y, to.x) && to != p.pos &&
    var dx := Abs(to.x - p.pos.x);
    var dy := Abs(to.y - p.pos.y);
    ((dx == 2 && dy == 1) || (dx == 1 && dy == 2)) && !OwnPieceAt(g, p, to)
  }

  /** `King::isValidMove`: one step, or a two-column sideways move by an unmoved king. */
  predicate KingIsValidMove(g: Grid, p: Piece, to: Point)
  {
    IsValidPosition(to.y, to.x) && to != p.pos &&
    var dx := Abs(to.x - p.pos.x);
    var dy := Abs(to.y - p.pos.y);
    if dx <= 1 && dy <= 1 then !OwnPieceAt(g, p, to)
    else !p.hasMoved && dy == 0 && dx == 2
  }

  // ---------------------------------------------------------------------------
  // Sliding pieces: rook, bishop, queen
  // ---------------------------------------------------------------------------

  /** `(d != 0) ? (d > 0 ? 1 : -1) : 0`, the rook and queen step. */
  function Sign(d: int): int
  {
    if d > 0 then 1 else if d < 0 then -1 else 0
  }

  /** `d > 0 ? 1 : -1`, the bishop step. */
  function BishopStep(d: int): int
  {
    if d > 0 then 1 else -1
  }

  function Max(a: int, b: int): int
  {
    if a >= b then a else b
  }

  predicate IsStep(s: int)
  {
    -1 <= s <= 1
  }

  /** i steps of size s, written without multiplication. */
  function Offset(s: int, i: int): int
  {
    if s == 1 then i else if s == -1 then -i else 0
  }

  /**
   * The path loop: `n` squares starting at (cx, cy) and moving by (sx, sy),
   * each read with `getPieceAt(currentX, currentY)`, that is as row = cx and
   * col = cy (the transposed read of the source), must all be empty.
   */
  predicate PathClear(g: Grid, cx: int, cy: int, sx: int, sy: int, n: nat)
    decreases n
  {
    n == 0 || (PieceAt(g, cx, cy).None? && PathClear(g, cx + sx, cy + sy, sx, sy, n - 1))
  }

  /** `Rook::isValidMove`. */
  predicate RookRule(g: Grid, p: Piece, to: Point)
  {
    IsValidPosition(to.y, to.x) && to != p.pos &&
    var dx := to.x - p.pos.x;
    var dy := to.y - p.pos.y;
    (dx == 0 || dy == 0) &&
    PathClear(g, p.pos.x + Sign(dx), p.pos.y + Sign(dy), Sign(dx), Sign(dy), Max(Abs(dx), Abs(dy)) - 1) &&
    !OwnPieceAt(g, p, to)
  }

  /** `Bishop::isValidMove`. */
  predicate BishopRule(g: Grid, p: Piece, to: Point)
  {
    IsValidPosition(to.y, to.x) && to != p.pos &&
    var dx := to.x - p.pos.x;
    var dy := to.y - p.pos.y;
    Abs(dx) == Abs(dy) &&
    PathClear(g, p.pos.x + BishopStep(dx), p.pos.y + BishopStep(dy), BishopStep(dx), BishopStep(dy), Abs(dx) - 1) &&
    !OwnPieceAt(g, p, to)
  }

  /** `Queen::isValidMove`. */
  predicate QueenRule(g: Grid, p: Piece, to: Point)
  {
    IsValidPosition(to.y, to.x) && to != p.pos &&
    var dx := to.x - p.pos.x;
    var dy := to.y - p.pos.y;
    (dx == 0 || dy == 0 || Abs(dx) == Abs(dy)) &&
    PathClear(g, p.pos.x + Sign(dx), p.pos.y + Sign(dy), Sign(dx), Sign(dy), Max(Abs(dx), Abs(dy)) - 1) &&
    !OwnPieceAt(g, p, to)
  }

  /** The virtual `isValidMove`, dispatched on the piece type. */
  predicate MoveRule(g: Grid, ep: Point, p: Piece, to: Point)
  {
    match p.kind
    case Pawn => PawnIsValidMove(g, ep, p, to)
    case Rook => RookRule(g, p, to)
    case Knight => KnightIsValidMove(g, p, to)
    case Bishop => BishopRule(g, p, to)
    case Queen => QueenRule(g, p, to)
    case King => KingIsValidMove(g, p, to)
  }

  // ---------------------------------------------------------------------------
  // The path-walking methods
  // ---------------------------------------------------------------------------

  /** (c, t) lie k steps of size s apart (s = 0: the same coordinate). */
  predicate Along(c: int, t: int, s: int, k: nat)
  {
    if s == 0 then c == t else if s == 1 then t - c == k else c - t == k
  }

  /**
   * The `while (currentX != newPos.x() || currentY != newPos.y())` loop shared
   * by the three sliding pieces: walks from (cx, cy) to the target (tx, ty),
   * reading `getPieceAt(currentX, currentY)` on each square before the target.
   */
  method WalkPath(board: array2<Option<Piece>>, cx: int, cy: int, tx: int, ty: int,
                  sx: int, sy: int, ghost n: nat) returns (clear: bool)
    requires board.Length0 == 8 && board.Length1 == 8
    requires IsStep(sx) && IsStep(sy) && (sx != 0 || sy != 0)
    requires Along(cx, tx, sx, n) && Along(cy, ty, sy, n)
    ensures clear == PathClear(Snapshot(board), cx, cy, sx, sy, n)
  {
    ghost var g := Snapshot(board);
    var x, y := cx, cy;
    ghost var k := n;
    while x != tx || y != ty
      invariant Along(x, tx, sx, k) && Along(y, ty, sy, k)
      invariant PathClear(g, cx, cy, sx, sy, n) == PathClear(g, x, y, sx, sy, k)
      decreases k
    {
      // getPieceAt(currentX, currentY): row = currentX, col = currentY
      if IsValidPosition(x, y) && board[x, y].Some? {
        return false;
      }
      x, y, k := x + sx, y + sy, k - 1;
    }
    return true;
  }

  /** Whether the target square holds a piece of p's colour, read from the array. */
  method OwnPieceOnArray(board: array2<Option<Piece>>, p: Piece, to: Point) returns (own: bool)
    requires board.Length0 == 8 && board.Length1 == 8
    requires IsValidPosition(to.y, to.x)
    ensures own == OwnPieceAt(Snapshot(board), p, to)
  {
    var target := board[to.y, to.x];
    own := target.Some? && target.value.color == p.color;
  }

  /** `Rook::isValidMove`, with its path loop. */
  method RookIsValidMove(board: array2<Option<Piece>>, p: Piece, to: Point) returns (ok: bool)
    requires board.Length0 == 8 && board.Length1 == 8
    ensures ok == RookRule(Snapshot(board), p, to)
  {
    if !IsValidPosition(to.y, to.x) || to == p.pos {
      return false;
    }
    var dx, dy := to.x - p.pos.x, to.y - p.pos.y;
    if dx != 0 && dy != 0 {
      return false;
    }
    var sx, sy := Sign(dx), Sign(dy);
    var clear := WalkPath(board, p.pos.x + sx, p.pos.y + sy, to.x, to.y, sx, sy, Max(Abs(dx), Abs(dy)) - 1);
    if !clear {
      return false;
    }
    var own := OwnPieceOnArray(board, p, to);
    ok := !own;
  }

  /** `Bishop::isValidMove`, with its path loop. */
  method BishopIsValidMove(board: array2<Option<Piece>>, p: Piece, to: Point) returns (ok: bool)
    requires board.Length0 == 8 && board.Length1 == 8
    ensures ok == BishopRule(Snapshot(board), p, to)
  {
    if !IsValidPosition(to.y, to.x) || to == p.pos {
      return false;
    }
    var dx, dy := to.x - p.pos.x, to.y - p.pos.y;
    if Abs(dx) != Abs(dy) {
      return false;
    }
    var sx, sy := BishopStep(dx), BishopStep(dy);
    var clear := WalkPath(board, p.pos.x + sx, p.pos.y + sy, to.x, to.y, sx, sy, Abs(dx) - 1);
    if !clear {
      return false;
    }
    var own := OwnPieceOnArray(board, p, to);
    ok := !own;
  }

  /** `Queen::isValidMove`, with its path loop. */
  method QueenIsValidMove(board: array2<Option<Piece>>, p: Piece, to: Point) returns (ok: bool)
    requires board.Length0 == 8 && board.Length1 == 8
    ensures ok == QueenRule(Snapshot(board), p, to)
  {
    if !IsValidPosition(to.y, to.x) || to == p.pos {
      return false;
    }
    var dx, dy := to.x - p.pos.x, to.y - p.pos.y;
    if dx != 0 && dy != 0 && Abs(dx) != Abs(dy) {
      return false;
    }
    var sx, sy := Sign(dx), Sign(dy);
    var clear := WalkPath(board, p.pos.x + sx, p.pos.y + sy, to.x, to.y, sx, sy, Max(Abs(dx), Abs(dy)) - 1);
    if !clear {
      return false;
    }
    var own := OwnPieceOnArray(board, p, to);
    ok := !own;
  }

  /** `piece->isValidMove(to, board)`: the virtual call, dispatched on the type. */
  method IsValidMove(board: array2<Option<Piece>>, ep: Point, p: Piece, to: Point) returns (ok: bool)
    requires board.Length0 == 8 && board.Length1 == 8
    ensures ok == MoveRule(Snapshot(board), ep, p, to)
  {
    match p.kind
    case Pawn => ok := PawnIsValidMove(Snapshot(board), ep, p, to);
    case Rook => ok := RookIsValidMove(board, p, to);
    case Knight => ok := KnightIsValidMove(Snapshot(board), p, to);
    case Bishop => ok := BishopIsValidMove(board, p, to);
    case Queen => ok := QueenIsValidMove(board, p, to);
    case King => ok := KingIsValidMove(Snapshot(board), p, to);
  }

  // ---------------------------------------------------------------------------
  // Properties of the rules
  // ---------------------------------------------------------------------------

  /** No rule accepts an off-board target or the piece's own square. */
  lemma RulesRejectOffBoardAndOwnSquare(g: Grid, ep: Point, p: Piece, to: Point)
    ensures MoveRule(g, ep, p, to) ==> IsValidPosition(to.y, to.x) && to != p.pos
  {
  }

  /**
   * No rule lands on a piece of the mover's own colour, except an en-passant
   * target and the king's two-column (castling) move, which never looks at the board.
   */
  lemma RulesNeverCaptureOwnPiece(g: Grid, ep: Point, p: Piece, to: Point)
    requires OwnPieceAt(g, p, to) && to != ep
    requires !(p.kind == King && Abs(to.x - p.pos.x) == 2)
    ensures !MoveRule(g, ep, p, to)
  {
  }

  /** The i-th square read by a path walk from (cx, cy) with step (sx, sy) is empty. */
  predicate EmptyAlong(g: Grid, cx: int, cy: int, sx: int, sy: int, i: int)
  {
    PieceAt(g, cx + Offset(sx, i), cy + Offset(sy, i)).None?
  }

  /** The path loop, restated: each of the n squares read (transposed) is empty. */
  lemma {:induction false} PathClearIff(g: Grid, cx: int, cy: int, sx: int, sy: int, n: nat)
    requires IsStep(sx) && IsStep(sy)
    ensures PathClear(g, cx, cy, sx, sy, n) <==> forall i :: 0 <= i < n ==> EmptyAlong(g, cx, cy, sx, sy, i)
    decreases n
  {
    if n > 0 {
      var nx, ny := cx + sx, cy + sy;
      PathClearIff(g, nx, ny, sx, sy, n - 1);
      forall j | 0 <= j < n - 1
        ensures EmptyAlong(g, cx, cy, sx, sy, j + 1) == EmptyAlong(g, nx, ny, sx, sy, j)
      {
        assert cx + Offset(sx, j + 1) == nx + Offset(sx, j);
        assert cy + Offset(sy, j + 1) == ny + Offset(sy, j);
      }
      assert EmptyAlong(g, cx, cy, sx, sy, 0) == PieceAt(g, cx, cy).None?;
      if forall j :: 0 <= j < n - 1 ==> EmptyAlong(g, nx, ny, sx, sy, j) {
        forall i | 0 <= i < n
          ensures i > 0 ==> EmptyAlong(g, cx, cy, sx, sy, i) == EmptyAlong(g, nx, ny, sx, sy, i - 1)
        {
          if i > 0 {
            assert EmptyAlong(g, cx, cy, sx, sy, (i - 1) + 1) == EmptyAlong(g, nx, ny, sx, sy, i - 1);
          }
        }
      }
    }
  }

  /**
   * A rook, bishop or queen move is rejected when any square the path loop
   * reads is occupied, that is a square at (row = x0 + i*sx, col = y0 + i*sy)
   * for 1 <= i < distance, where (x0, y0) is the piece's own QPoint.
   */
  lemma SlidingBlockedPathRejects(g: Grid, p: Piece, to: Point, i: int)
    requires p.kind == Rook || p.kind == Bishop || p.kind == Queen
    requires IsValidPosition(to.y, to.x) && to != p.pos
    requires var dx, dy := to.x - p.pos.x, to.y - p.pos.y;
      1 <= i < Max(Abs(dx), Abs(dy)) &&
      PieceAt(g, p.pos.x + Offset(Sign(dx), i), p.pos.y + Offset(Sign(dy), i)).Some?
    ensures !MoveRule(g, NoSquare, p, to)
  {
    var dx, dy := to.x - p.pos.x, to.y - p.pos.y;
    var n := Max(Abs(dx), Abs(dy)) - 1;
    var sx, sy := Sign(dx), Sign(dy);
    var x0, y0 := p.pos.x + sx, p.pos.y + sy;
    assert p.pos.x + Offset(sx, i) == x0 + Offset(sx, i - 1);
    assert p.pos.y + Offset(sy, i) == y0 + Offset(sy, i - 1);
    assert !EmptyAlong(g, x0, y0, sx, sy, i - 1);
    PathClearIff(g, x0, y0, sx, sy, n);
    assert !PathClear(g, x0, y0, sx, sy, n);
    if p.kind == Bishop && Abs(dx) == Abs(dy) {
      assert sx == BishopStep(dx) && sy == BishopStep(dy);
      assert n == Abs(dx) - 1;
    }
  }

  /** The queen moves exactly where a rook or a bishop on its square would. */
  lemma QueenIsRookOrBishop(g: Grid, p: Piece, to: Point)
    ensures QueenRule(g, p, to) <==> RookRule(g, p, to) || BishopRule(g, p, to)
  {
    var dx, dy := to.x - p.pos.x, to.y - p.pos.y;
    if Abs(dx) == Abs(dy) && dx != 0 {
      assert Sign(dx) == BishopStep(dx) && Sign(dy) == BishopStep(dy);
      assert Max(Abs(dx), Abs(dy)) - 1 == Abs(dx) - 1;
    }
  }

  /** Direction rules: a rook moves along a line, a bishop along a diagonal, a queen along either. */
  lemma SlidingDirections(g: Grid, p: Piece, to: Point)
    ensures RookRule(g, p, to) ==> to.x == p.pos.x || to.y == p.pos.y
    ensures BishopRule(g, p, to) ==> Abs(to.x - p.pos.x) == Abs(to.y - p.pos.y) != 0
    ensures QueenRule(g, p, to) ==>
      to.x == p.pos.x || to.y == p.pos.y || Abs(to.x - p.pos.x) == Abs(to.y - p.pos.y)
  {
  }

  /**
   * Pawns only advance: every accepted move goes one or two rows in the
   * pawn's direction and at most one column sideways; a two-row move is a
   * straight move of an unmoved pawn over an empty square onto an empty
   * square; a straight move never captures.
   */
  lemma PawnMoves(g: Grid, ep: Point, p: Piece, to: Point)
    requires PawnIsValidMove(g, ep, p, to)
    ensures 1 <= (to.y - p.pos.y) * Forward(p.color) <= 2
    ensures Abs(to.x - p.pos.x) <= 1
    ensures Abs(to.y - p.pos.y) == 2 ==>
      to.x == p.pos.x && !p.hasMoved &&
      PieceAtPoint(g, Point(p.pos.x, p.pos.y + Forward(p.color))).None?
    ensures to.x == p.pos.x ==> PieceAtPoint(g, to).None?
  {
  }

  /** An unmoved king may always step two columns sideways, whatever stands on the board. */
  lemma KingTwoColumnsIgnoresBoard(g: Grid, h: Grid, p: Piece, to: Point)
    requires IsValidPosition(to.y, to.x) && !p.hasMoved
    requires to.y == p.pos.y && Abs(to.x - p.pos.x) == 2
    ensures KingIsValidMove(g, p, to) && KingIsValidMove(h, p, to)
  {
  }
}
