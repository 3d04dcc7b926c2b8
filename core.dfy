/**
 * Shared vocabulary of the chess engine: piece kinds and colours, the QPoint
 * coordinate pair, the piece record and the 8x8 board as a value.
 *
 * Convention of the board (chessboard.cpp): a square is `QPoint(x = column,
 * y = row)` and the board is indexed `[row][col]`; row 0 is Black's back rank
 * and row 7 is White's.
 */
module Core {

  datatype Option<T> = None | Some(value: T)

  /** Declaration order matters: it is the row index of the symbol table. */
  datatype Kind = Pawn | Rook | Knight | Bishop | Queen | King

  datatype Color = White | Black

  /** QPoint: `x` and `y` are plain ints; which one is the row depends on the caller. */
  datatype Point = Point(x: int, y: int)

  /** A piece object: its type, colour, its own stored position and its moved flag. */
  datatype Piece = Piece(kind: Kind, color: Color, pos: Point, hasMoved: bool)

  /** QPoint(-1, -1), the "no square" marker of the source. */
  const NoSquare := Point(-1, -1)

  /** A `QPair<QPoint, QPoint>` move: origin, then target. */
  type MovePair = (Point, Point)

  /** The pair of (-1, -1) squares returned when there is no move. */
  const NoMove: MovePair := (NoSquare, NoSquare)

  function Opposite(c: Color): Color
  {
    if c == White then Black else White
  }

  function Abs(n: int): nat
  {
    if n < 0 then -n else n
  }

  /** The board contents as a value: 8 rows of 8 optional pieces. */
  type Grid = g: seq<seq<Option<Piece>>> | |g| == 8 && forall r :: 0 <= r < 8 ==> |g[r]| == 8
    witness seq(8, _ => seq(8, _ => None))

  /** `isValidPosition(row, col)` of chessboard.cpp. */
  predicate IsValidPosition(row: int, col: int)
  {
    0 <= row < 8 && 0 <= col < 8
  }

  /** `getPieceAt(row, col)`: the square's content, or null off the board. */
  function PieceAt(g: Grid, row: int, col: int): Option<Piece>
  {
    if IsValidPosition(row, col) then g[row][col] else None
  }

  /** `getPieceAt(QPoint)`, which reads row = y and col = x. */
  function PieceAtPoint(g: Grid, p: Point): Option<Piece>
  {
    PieceAt(g, p.y, p.x)
  }

  predicate IsA(o: Option<Piece>, k: Kind, c: Color)
  {
    o.Some? && o.value.kind == k && o.value.color == c
  }

  /** Every piece's stored position is the QPoint(col, row) of the square holding it. */
  predicate PositionsConsistent(g: Grid)
  {
    forall r, c :: 0 <= r < 8 && 0 <= c < 8 && g[r][c].Some? ==> g[r][c].value.pos == Point(c, r)
  }

  /** The grid with one square overwritten. */
  function Place(g: Grid, row: int, col: int, v: Option<Piece>): (g': Grid)
    requires IsValidPosition(row, col)
    ensures forall r, c :: 0 <= r < 8 && 0 <= c < 8 ==>
      g'[r][c] == (if r == row && c == col then v else g[r][c])
  {
    g[row := g[row][col := v]]
  }

  /** The value held by an 8x8 array of squares. */
  function Snapshot(a: array2<Option<Piece>>): (g: Grid)
    requires a.Length0 == 8 && a.Length1 == 8
    reads a
    ensures forall r, c :: 0 <= r < 8 && 0 <= c < 8 ==> g[r][c] == a[r, c]
  {
    seq(8, (r: int) requires 0 <= r < 8 reads a =>
      seq(8, (c: int) requires 0 <= c < 8 reads a => a[r, c]))
  }

  /** Two grids are equal when they agree on every square. */
  lemma GridExt(g: Grid, h: Grid)
    requires forall r, c :: 0 <= r < 8 && 0 <= c < 8 ==> g[r][c] == h[r][c]
    ensures g == h
  {
    forall r | 0 <= r < 8
      ensures g[r] == h[r]
    {
      assert forall c :: 0 <= c < 8 ==> g[r][c] == h[r][c];
    }
  }

  /**
   * The character a C++ `char` value denotes once Qt widens it as Latin-1:
   * the value is truncated to its low 8 bits.
   */
  function Latin1(n: int): char
  {
    (n % 256) as char
  }

  /**
   * `QChar::toLatin1()` read back as a signed `char`: characters beyond
   * Latin-1 become 0, and codes 128..255 become negative.
   */
  function SignedLatin1(c: char): int
  {
    var v := if c as int < 256 then c as int else 0;
    if v >= 128 then v - 256 else v
  }

  lemma Latin1RoundTrip(n: int)
    requires 0 <= n < 128
    ensures SignedLatin1(Latin1(n)) == n
  {
  }

  /** `qBound(lo, v, hi)`. */
  function Clamp(lo: int, v: int, hi: int): int
    requires lo <= hi
  {
    if v < lo then lo else if v > hi then hi else v
  }

  /** Decimal rendering of a natural number, as `QString::number` gives it. */
  function NatToString(n: nat): (s: string)
    ensures |s| >= 1
    ensures forall i :: 0 <= i < |s| ==> '0' <= s[i] <= '9'
    ensures n > 0 ==> s[0] != '0'
  {
    if n < 10 then [('0' as int + n) as char]
    else NatToString(n / 10) + [('0' as int + n % 10) as char]
  }

  /** The value of a decimal digit; 0 for any other character. */
  function DigitValue(c: char): nat
  {
    if '0' <= c <= '9' then c as int - '0' as int else 0
  }

  /** The number a string of decimal digits spells, most significant digit first. */
  function DecimalValue(s: string): nat
  {
    if |s| == 0 then 0 else 10 * DecimalValue(s[..|s| - 1]) + DigitValue(s[|s| - 1])
  }

  /** `NatToString` spells its argument in decimal. */
  lemma {:induction false} NatToStringValue(n: nat)
    ensures DecimalValue(NatToString(n)) == n
  {
    if n >= 10 {
      var s := NatToString(n);
      NatToStringValue(n / 10);
      assert s[..|s| - 1] == NatToString(n / 10);
    }
  }
}
