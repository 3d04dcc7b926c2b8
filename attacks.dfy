/**
 * The attack and king-safety queries of chessboard.cpp: `isSquareAttacked`,
 * `findKingOnBoard` and the board simulation inside `wouldBeInCheck`.
 *
 * The source runs them on an arbitrary board array (the live board or a
 * temporary copy); here the specification functions take the board as a
 * Grid value and the methods take an 8x8 array and are proved equal to them.
 * Unlike the sliding-piece rules of chesspiece.cpp, these read squares as
 * `board[y][x]`, so rows and columns are not swapped.
 */
module Attacks {
  import opened Core
  import opened Pieces

  /** `knOff`: the eight knight jumps as (dx, dy). */
  const KnightOffsets: seq<(int, int)> := [(1, 2), (2, 1), (2, -1), (1, -2), (-1, -2), (-2, -1), (-2, 1), (-1, 2)]

  /** `orth`: the rook and queen directions. */
  const Orthogonal: seq<(int, int)> := [(1, 0), (-1, 0), (0, 1), (0, -1)]

  /** `diag`: the bishop and queen directions. */
  const Diagonal: seq<(int, int)> := [(1, 1), (1, -1), (-1, 1), (-1, -1)]

  // ---------------------------------------------------------------------------
  // isSquareAttacked, as a specification
  // ---------------------------------------------------------------------------

  /** Step 1: a pawn of colour c on the row behind the square, one column to either side. */
  predicate PawnAttack(g: Grid, sq: Point, c: Color)
  {
    var py := if c == White then sq.y + 1 else sq.y - 1;
    IsA(PieceAt(g, py, sq.x - 1), Pawn, c) || IsA(PieceAt(g, py, sq.x + 1), Pawn, c)
  }

  /** The i-th knight jump from the square lands on a knight of colour c. */
  predicate KnightAt(g: Grid, sq: Point, c: Color, i: int)
    requires 0 <= i < 8
  {
    IsA(PieceAt(g, sq.y + KnightOffsets[i].1, sq.x + KnightOffsets[i].0), Knight, c)
  }

  /** Step 2: some knight jump lands on a knight of colour c. */
  predicate KnightAttack(g: Grid, sq: Point, c: Color)
  {
    exists i :: 0 <= i < 8 && KnightAt(g, sq, c, i)
  }

  /** The number of squares a ray from (x, y) still has on the board. */
  function RayLeft(x: int, y: int, dx: int, dy: int): nat
  {
    if !IsValidPosition(y, x) then 0
    else if dx == 1 then 8 - x
    else if dx == -1 then x + 1
    else if dy == 1 then 8 - y
    else y + 1
  }

  predicate IsDirection(dx: int, dy: int)
  {
    IsStep(dx) && IsStep(dy) && (dx != 0 || dy != 0)
  }

  /**
   * The ray walk: from (x, y) onwards in direction (dx, dy), the first
   * occupied square holds a piece of colour c that is a `k` or a queen.
   */
  predicate RayHit(g: Grid, x: int, y: int, dx: int, dy: int, c: Color, k: Kind)
    requires IsDirection(dx, dy)
    decreases RayLeft(x, y, dx, dy)
  {
    if !IsValidPosition(y, x) then false
    else match g[y][x]
      case None => RayHit(g, x + dx, y + dy, dx, dy, c, k)
      case Some(p) => p.color == c && (p.kind == k || p.kind == Queen)
  }

  /** The ray that starts next to the square in direction d. */
  predicate RayFrom(g: Grid, sq: Point, c: Color, d: (int, int), k: Kind)
    requires IsDirection(d.0, d.1)
  {
    RayHit(g, sq.x + d.0, sq.y + d.1, d.0, d.1, c, k)
  }

  /** Step 3: a rook or queen of colour c sees the square along a rank or file. */
  predicate OrthAttack(g: Grid, sq: Point, c: Color)
  {
    exists i :: 0 <= i < 4 && RayFrom(g, sq, c, Orthogonal[i], Rook)
  }

  /** Step 4: a bishop or queen of colour c sees the square along a diagonal. */
  predicate DiagAttack(g: Grid, sq: Point, c: Color)
  {
    exists i :: 0 <= i < 4 && RayFrom(g, sq, c, Diagonal[i], Bishop)
  }

  /** The neighbour at offset (dx, dy) is the king of colour c. */
  predicate KingAt(g: Grid, sq: Point, c: Color, dx: int, dy: int)
  {
    IsA(PieceAt(g, sq.y + dy, sq.x + dx), King, c)
  }

  /** Step 5: the king of colour c stands on one of the eight neighbours. */
  predicate KingAttack(g: Grid, sq: Point, c: Color)
  {
    exists dx, dy :: -1 <= dx <= 1 && -1 <= dy <= 1 && (dx != 0 || dy != 0) && KingAt(g, sq, c, dx, dy)
  }

  /** `isSquareAttacked(board, square, attackerColor)`. */
  predicate Attacked(g: Grid, sq: Point, c: Color)
  {
    PawnAttack(g, sq, c) || KnightAttack(g, sq, c) || OrthAttack(g, sq, c) ||
    DiagAttack(g, sq, c) || KingAttack(g, sq, c)
  }

  // ---------------------------------------------------------------------------
  // findKingOnBoard, as a specification
  // ---------------------------------------------------------------------------

  /** (r1, c1) comes strictly before (r2, c2) in the row-by-row scan order. */
  predicate Before(r1: int, c1: int, r2: int, c2: int)
  {
    r1 < r2 || (r1 == r2 && c1 < c2)
  }

  /**
   * The scan of `findKingOnBoard` resumed at (row, col): the first king of
   * colour c at or after that square, as QPoint(col, row), or (-1, -1).
   */
  function FindKingFrom(g: Grid, c: Color, row: int, col: int): (p: Point)
    requires 0 <= row <= 8 && 0 <= col <= 8
    ensures p == NoSquare <==>
      forall r, k :: 0 <= r < 8 && 0 <= k < 8 && !Before(r, k, row, col) ==> !IsA(g[r][k], King, c)
    ensures p != NoSquare ==>
      IsValidPosition(p.y, p.x) && IsA(g[p.y][p.x], King, c) && !Before(p.y, p.x, row, col) &&
      forall r, k :: 0 <= r < 8 && 0 <= k < 8 && !Before(r, k, row, col) && Before(r, k, p.y, p.x) ==>
        !IsA(g[r][k], King, c)
    decreases 8 - row, 8 - col
  {
    if row == 8 then NoSquare
    else if col == 8 then FindKingFrom(g, c, row + 1, 0)
    else if IsA(g[row][col], King, c) then Point(col, row)
    else FindKingFrom(g, c, row, col + 1)
  }

  /** `findKing` / `findKingOnBoard`: the first king of colour c in row-major order. */
  function FindKing(g: Grid, c: Color): (p: Point)
    ensures p == NoSquare <==> forall r, k :: 0 <= r < 8 && 0 <= k < 8 ==> !IsA(g[r][k], King, c)
    ensures p != NoSquare ==>
      IsValidPosition(p.y, p.x) && IsA(g[p.y][p.x], King, c) &&
      forall r, k :: 0 <= r < 8 && 0 <= k < 8 && Before(r, k, p.y, p.x) ==> !IsA(g[r][k], King, c)
  {
    FindKingFrom(g, c, 0, 0)
  }

  /** `isKingInCheck(color)`: a king of that colour is found and the opponent attacks it. */
  predicate InCheck(g: Grid, c: Color)
  {
    var k := FindKing(g, c);
    k.x != -1 && Attacked(g, k, Opposite(c))
  }

  // ---------------------------------------------------------------------------
  // wouldBeInCheck, as a specification
  // ---------------------------------------------------------------------------

  /** The temporary board of `wouldBeInCheck`: the mover copied to `to`, then `from` emptied. */
  function Simulate(g: Grid, from: Point, to: Point): (tmp: Grid)
    requires IsValidPosition(from.y, from.x) && IsValidPosition(to.y, to.x)
    ensures tmp[from.y][from.x].None?
    ensures to != from ==> tmp[to.y][to.x] == g[from.y][from.x]
    ensures forall r, k :: 0 <= r < 8 && 0 <= k < 8 && Point(k, r) != from && Point(k, r) != to ==>
      tmp[r][k] == g[r][k]
  {
    Place(Place(g, to.y, to.x, g[from.y][from.x]), from.y, from.x, None)
  }

  /**
   * `wouldBeInCheck(from, to, color)`: false when `from` is empty or no king
   * is found; otherwise whether the king of `color` (at `to` when the king
   * itself moves) is attacked on the simulated board.
   */
  predicate LeavesKingInCheck(g: Grid, from: Point, to: Point, color: Color)
    requires IsValidPosition(from.y, from.x) && IsValidPosition(to.y, to.x)
  {
    var moving := g[from.y][from.x];
    if moving.None? then false
    else
      var tmp := Simulate(g, from, to);
      var kingPos := if moving.value.kind == King then to else FindKing(tmp, color);
      kingPos.x != -1 && Attacked(tmp, kingPos, Opposite(color))
  }

  // ---------------------------------------------------------------------------
  // The methods, over an 8x8 array
  // ---------------------------------------------------------------------------

  /** One `while (inBounds(ny, nx))` ray walk of `isSquareAttacked`. */
  method ScanRay(board: array2<Option<Piece>>, x0: int, y0: int, dx: int, dy: int, c: Color, k: Kind)
    returns (hit: bool)
    requires board.Length0 == 8 && board.Length1 == 8
    requires IsDirection(dx, dy)
    ensures hit == RayHit(Snapshot(board), x0, y0, dx, dy, c, k)
  {
    ghost var g := Snapshot(board);
    var nx, ny := x0, y0;
    while IsValidPosition(ny, nx)
      invariant RayHit(g, x0, y0, dx, dy, c, k) == RayHit(g, nx, ny, dx, dy, c, k)
      decreases RayLeft(nx, ny, dx, dy)
    {
      var p := board[ny, nx];
      if p.Some? {
        return p.value.color == c && (p.value.kind == k || p.value.kind == Queen);
      }
      nx, ny := nx + dx, ny + dy;
    }
    return false;
  }

  /** Step 1 of `isSquareAttacked`: the two pawn squares behind the target. */
  method PawnCheck(board: array2<Option<Piece>>, square: Point, attacker: Color) returns (r: bool)
    requires board.Length0 == 8 && board.Length1 == 8
    ensures r == PawnAttack(Snapshot(board), square, attacker)
  {
    var sx, sy := square.x, square.y;
    var py := if attacker == White then sy + 1 else sy - 1;
    if IsValidPosition(py, sx - 1) && IsA(board[py, sx - 1], Pawn, attacker) {
      return true;
    }
    if IsValidPosition(py, sx + 1) && IsA(board[py, sx + 1], Pawn, attacker) {
      return true;
    }
    return false;
  }

  /** Step 2 of `isSquareAttacked`: the loop over `knOff`. */
  method KnightCheck(board: array2<Option<Piece>>, square: Point, attacker: Color) returns (r: bool)
    requires board.Length0 == 8 && board.Length1 == 8
    ensures r == KnightAttack(Snapshot(board), square, attacker)
  {
    ghost var g := Snapshot(board);
    for i := 0 to 8
      invariant forall j :: 0 <= j < i ==> !KnightAt(g, square, attacker, j)
    {
      var nx, ny := square.x + KnightOffsets[i].0, square.y + KnightOffsets[i].1;
      if IsValidPosition(ny, nx) && IsA(board[ny, nx], Knight, attacker) {
        assert KnightAt(g, square, attacker, i);
        return true;
      }
    }
    return false;
  }

  /** Steps 3 and 4 of `isSquareAttacked`: one ray walk per direction of `dirs`. */
  method SlideCheck(board: array2<Option<Piece>>, square: Point, attacker: Color,
                    dirs: seq<(int, int)>, k: Kind) returns (r: bool)
    requires board.Length0 == 8 && board.Length1 == 8
    requires forall i :: 0 <= i < |dirs| ==> IsDirection(dirs[i].0, dirs[i].1)
    ensures r == exists i :: 0 <= i < |dirs| && RayFrom(Snapshot(board), square, attacker, dirs[i], k)
  {
    ghost var g := Snapshot(board);
    for i := 0 to |dirs|
      invariant forall j :: 0 <= j < i ==> !RayFrom(g, square, attacker, dirs[j], k)
    {
      var d := dirs[i];
      var hit := ScanRay(board, square.x + d.0, square.y + d.1, d.0, d.1, attacker, k);
      if hit {
        assert RayFrom(g, square, attacker, dirs[i], k);
        return true;
      }
    }
    return false;
  }

  /** Step 5 of `isSquareAttacked`: the eight neighbours, scanned by column offset then row offset. */
  method KingCheck(board: array2<Option<Piece>>, square: Point, attacker: Color) returns (r: bool)
    requires board.Length0 == 8 && board.Length1 == 8
    ensures r == KingAttack(Snapshot(board), square, attacker)
  {
    ghost var g := Snapshot(board);
    for dx := -1 to 2
      invariant forall a, b :: -1 <= a < dx && -1 <= b <= 1 && (a != 0 || b != 0) ==> !KingAt(g, square, attacker, a, b)
    {
      for dy := -1 to 2
        invariant forall a, b :: ((-1 <= a < dx && -1 <= b <= 1) || (a == dx && -1 <= b < dy)) && (a != 0 || b != 0) ==>
          !KingAt(g, square, attacker, a, b)
      {
        if dx == 0 && dy == 0 {
          continue;
        }
        var nx, ny := square.x + dx, square.y + dy;
        if IsValidPosition(ny, nx) && IsA(board[ny, nx], King, attacker) {
          assert KingAt(g, square, attacker, dx, dy);
          return true;
        }
      }
    }
    return false;
  }

  /** `isSquareAttacked`: the five attack checks, each returning as soon as it finds an attacker. */
  method IsSquareAttacked(board: array2<Option<Piece>>, square: Point, attacker: Color) returns (r: bool)
    requires board.Length0 == 8 && board.Length1 == 8
    ensures r == Attacked(Snapshot(board), square, attacker)
  {
    r := PawnCheck(board, square, attacker);
    if r {
      return;
    }
    r := KnightCheck(board, square, attacker);
    if r {
      return;
    }
    r := SlideCheck(board, square, attacker, Orthogonal, Rook);
    if r {
      return;
    }
    r := SlideCheck(board, square, attacker, Diagonal, Bishop);
    if r {
      return;
    }
    r := KingCheck(board, square, attacker);
  }

  /** `findKingOnBoard`: the row-by-row scan for the first king of the colour. */
  method FindKingOnBoard(board: array2<Option<Piece>>, color: Color) returns (p: Point)
    requires board.Length0 == 8 && board.Length1 == 8
    ensures p == FindKing(Snapshot(board), color)
  {
    ghost var g := Snapshot(board);
    for row := 0 to 8
      invariant FindKingFrom(g, color, row, 0) == FindKing(g, color)
    {
      for col := 0 to 8
        invariant FindKingFrom(g, color, row, col) == FindKing(g, color)
      {
        var piece := board[row, col];
        if piece.Some? && piece.value.kind == King && piece.value.color == color {
          return Point(col, row);
        }
      }
    }
    return NoSquare;
  }

  // ---------------------------------------------------------------------------
  // Agreement with the piece rules
  // ---------------------------------------------------------------------------

  /**
   * The knight check of `isSquareAttacked` agrees with `Knight::isValidMove`:
   * a square not held by colour c is attacked by a knight of c exactly when
   * some knight of c may move there.
   */
  lemma KnightAttackIffKnightMove(g: Grid, sq: Point, c: Color)
    requires PositionsConsistent(g)
    requires IsValidPosition(sq.y, sq.x)
    requires !(g[sq.y][sq.x].Some? && g[sq.y][sq.x].value.color == c)
    ensures KnightAttack(g, sq, c) <==>
      exists r, k :: 0 <= r < 8 && 0 <= k < 8 && IsA(g[r][k], Knight, c) && KnightIsValidMove(g, g[r][k].value, sq)
  {
    if KnightAttack(g, sq, c) {
      var i :| 0 <= i < 8 && KnightAt(g, sq, c, i);
      var r, k := sq.y + KnightOffsets[i].1, sq.x + KnightOffsets[i].0;
      assert IsValidPosition(r, k);
      assert KnightIsValidMove(g, g[r][k].value, sq);
    }
    if exists r, k :: 0 <= r < 8 && 0 <= k < 8 && IsA(g[r][k], Knight, c) && KnightIsValidMove(g, g[r][k].value, sq) {
      var r, k :| 0 <= r < 8 && 0 <= k < 8 && IsA(g[r][k], Knight, c) && KnightIsValidMove(g, g[r][k].value, sq);
      var i := KnightIndex(k - sq.x, r - sq.y);
      assert KnightAt(g, sq, c, i);
    }
  }

  /** The position in `knOff` of a knight jump. */
  function KnightIndex(dx: int, dy: int): (i: int)
    requires (Abs(dx) == 1 && Abs(dy) == 2) || (Abs(dx) == 2 && Abs(dy) == 1)
    ensures 0 <= i < 8 && KnightOffsets[i] == (dx, dy)
  {
    if dx == 1 && dy == 2 then 0
    else if dx == 2 && dy == 1 then 1
    else if dx == 2 && dy == -1 then 2
    else if dx == 1 && dy == -2 then 3
    else if dx == -1 && dy == -2 then 4
    else if dx == -2 && dy == -1 then 5
    else if dx == -2 && dy == 1 then 6
    else 7
  }

  /**
   * The pawn check of `isSquareAttacked` agrees with the diagonal branch of
   * `Pawn::isValidMove`: a square held by an opponent of c is attacked by a
   * pawn of c exactly when some pawn of c may move onto it.
   */
  lemma PawnAttackIffPawnCapture(g: Grid, ep: Point, sq: Point, c: Color)
    requires PositionsConsistent(g)
    requires IsValidPosition(sq.y, sq.x)
    requires g[sq.y][sq.x].Some? && g[sq.y][sq.x].value.color != c
    ensures PawnAttack(g, sq, c) <==>
      exists r, k :: 0 <= r < 8 && 0 <= k < 8 && IsA(g[r][k], Pawn, c) && PawnIsValidMove(g, ep, g[r][k].value, sq)
  {
    var py := if c == White then sq.y + 1 else sq.y - 1;
    if IsA(PieceAt(g, py, sq.x - 1), Pawn, c) {
      assert PawnIsValidMove(g, ep, g[py][sq.x - 1].value, sq);
    }
    if IsA(PieceAt(g, py, sq.x + 1), Pawn, c) {
      assert PawnIsValidMove(g, ep, g[py][sq.x + 1].value, sq);
    }
  }

  /**
   * The king check of `isSquareAttacked` agrees with the one-step branch of
   * `King::isValidMove`: a square not held by colour c is next to the king of
   * c exactly when that king may step onto it.
   */
  lemma KingAttackIffKingStep(g: Grid, sq: Point, c: Color)
    requires PositionsConsistent(g)
    requires IsValidPosition(sq.y, sq.x)
    requires !(g[sq.y][sq.x].Some? && g[sq.y][sq.x].value.color == c)
    ensures KingAttack(g, sq, c) <==>
      exists r, k :: 0 <= r < 8 && 0 <= k < 8 && IsA(g[r][k], King, c) && Abs(k - sq.x) <= 1 &&
        KingIsValidMove(g, g[r][k].value, sq)
  {
    if KingAttack(g, sq, c) {
      var dx, dy :| -1 <= dx <= 1 && -1 <= dy <= 1 && (dx != 0 || dy != 0) && KingAt(g, sq, c, dx, dy);
      KingNeighbourSteps(g, sq, c, dx, dy);
    }
    if exists r, k :: 0 <= r < 8 && 0 <= k < 8 && IsA(g[r][k], King, c) && Abs(k - sq.x) <= 1 &&
        KingIsValidMove(g, g[r][k].value, sq) {
      var r, k :| 0 <= r < 8 && 0 <= k < 8 && IsA(g[r][k], King, c) && Abs(k - sq.x) <= 1 &&
        KingIsValidMove(g, g[r][k].value, sq);
      KingStepIsNeighbour(g, sq, c, r, k);
    }
  }

  /** A king of colour c next to a square it does not hold may step onto it. */
  lemma KingNeighbourSteps(g: Grid, sq: Point, c: Color, dx: int, dy: int)
    requires PositionsConsistent(g)
    requires IsValidPosition(sq.y, sq.x)
    requires !(g[sq.y][sq.x].Some? && g[sq.y][sq.x].value.color == c)
    requires -1 <= dx <= 1 && -1 <= dy <= 1 && (dx != 0 || dy != 0) && KingAt(g, sq, c, dx, dy)
    ensures IsValidPosition(sq.y + dy, sq.x + dx)
    ensures IsA(g[sq.y + dy][sq.x + dx], King, c) && KingIsValidMove(g, g[sq.y + dy][sq.x + dx].value, sq)
  {
    var r, k := sq.y + dy, sq.x + dx;
    assert IsValidPosition(r, k);
    assert g[r][k].value.pos == Point(k, r);
  }

  /** A king step of at most one column onto a square is a neighbouring king. */
  lemma KingStepIsNeighbour(g: Grid, sq: Point, c: Color, r: int, k: int)
    requires PositionsConsistent(g)
    requires 0 <= r < 8 && 0 <= k < 8 && IsA(g[r][k], King, c) && Abs(k - sq.x) <= 1
    requires KingIsValidMove(g, g[r][k].value, sq)
    ensures KingAttack(g, sq, c)
  {
    assert g[r][k].value.pos == Point(k, r);
    assert KingAt(g, sq, c, k - sq.x, r - sq.y);
  }
}
