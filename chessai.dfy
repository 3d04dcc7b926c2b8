/**
 * The deterministic part of `ChessAI` (chessai.cpp): piece values, the
 * static evaluation, the list of candidate moves, the greedy one-ply move
 * choice, the UCI move codec, the FEN writer and the history as UCI strings.
 *
 * chessai.cpp builds its squares as `QPoint(row, col)`, so in the pairs it
 * produces `x` is the row and `y` the column, while `ChessBoard::canMove`
 * and `getPieceAt(QPoint)` read `x` as the column. Both are kept as written.
 */
module ChessAI {
  import opened Core
  import opened Attacks
  import opened GameRules
  import opened Board
  import opened Fen

  // ---------------------------------------------------------------------------
  // getPieceValue and evaluateBoard
  // ---------------------------------------------------------------------------

  /** `getPieceValue`: 0 for no piece. */
  function PieceValue(o: Option<Piece>): (v: int)
    ensures v == 0 <==> o.None?
    ensures o.Some? ==> 100 <= v <= 20000
    ensures o.Some? && o.value.kind == King ==> v == 20000
  {
    if o.None? then 0
    else match o.value.kind
      case Pawn => 100
      case Knight => 320
      case Bishop => 330
      case Rook => 500
      case Queen => 900
      case King => 20000
  }

  /** The square holds a piece of colour `c` other than its king. */
  predicate NonKingOf(o: Option<Piece>, c: Color)
  {
    o.Some? && o.value.color == c && o.value.kind != King
  }

  /** The value of `c`'s non-king pieces in the first `k` squares of the board, row by row. */
  function NonKingMaterial(g: Grid, c: Color, k: int): nat
    requires 0 <= k <= 64
  {
    if k == 0 then 0
    else
      var o := g[(k - 1) / 8][(k - 1) % 8];
      NonKingMaterial(g, c, k - 1) + (if NonKingOf(o, c) then PieceValue(o) else 0)
  }

  /** The number of `c`'s non-king pieces in the first `k` squares of the board. */
  function NonKingCount(g: Grid, c: Color, k: int): nat
    requires 0 <= k <= 64
  {
    if k == 0 then 0
    else NonKingCount(g, c, k - 1) + (if NonKingOf(g[(k - 1) / 8][(k - 1) % 8], c) then 1 else 0)
  }

  /** No non-king piece is worth more than a queen. */
  lemma {:induction false} NonKingMaterialBound(g: Grid, c: Color, k: int)
    requires 0 <= k <= 64
    ensures NonKingMaterial(g, c, k) <= 900 * NonKingCount(g, c, k)
  {
    if k > 0 {
      NonKingMaterialBound(g, c, k - 1);
    }
  }

  /**
   * The king is worth more than all the other material a side can have
   * together: fifteen pieces besides the king, on any board.
   */
  lemma KingOutweighsMaterial(g: Grid, c: Color)
    requires NonKingCount(g, c, 64) <= 15
    ensures NonKingMaterial(g, c, 64) < PieceValue(Some(Piece(King, c, Point(0, 0), false)))
  {
    NonKingMaterialBound(g, c, 64);
  }

  /** A square's contribution to the material count: plus for `c`, minus for the other side. */
  function Signed(o: Option<Piece>, c: Color): int
  {
    if o.None? then 0 else if o.value.color == c then PieceValue(o) else -PieceValue(o)
  }

  /** The material count of columns 0..k-1 of row `r`. */
  function MaterialInRow(g: Grid, c: Color, r: int, k: int): int
    requires 0 <= r < 8 && 0 <= k <= 8
  {
    if k == 0 then 0 else MaterialInRow(g, c, r, k - 1) + Signed(g[r][k - 1], c)
  }

  /** The material count of rows 0..k-1: the first loop of `evaluateBoard`. */
  function MaterialUpTo(g: Grid, c: Color, k: int): int
    requires 0 <= k <= 8
  {
    if k == 0 then 0 else MaterialUpTo(g, c, k - 1) + MaterialInRow(g, c, k - 1, 8)
  }

  /** 30 points if the square holds a piece of `c`. */
  function CentreBonus(o: Option<Piece>, c: Color): int
  {
    if o.Some? && o.value.color == c then 30 else 0
  }

  /** The centre bonus of columns 3..k-1 of row `r`. */
  function CentreInRow(g: Grid, c: Color, r: int, k: int): int
    requires 0 <= r < 8 && 3 <= k <= 5
  {
    if k == 3 then 0 else CentreInRow(g, c, r, k - 1) + CentreBonus(g[r][k - 1], c)
  }

  /** The centre bonus of rows 3..k-1, columns 3..4: the second loop of `evaluateBoard`. */
  function CentreUpTo(g: Grid, c: Color, k: int): int
    requires 3 <= k <= 5
  {
    if k == 3 then 0 else CentreUpTo(g, c, k - 1) + CentreInRow(g, c, k - 1, 5)
  }

  /** 50 for the opponent in check, minus 50 for `c` in check. */
  function CheckTerm(g: Grid, c: Color): int
  {
    (if InCheck(g, Opposite(c)) then 50 else 0) - (if InCheck(g, c) then 50 else 0)
  }

  /** `evaluateBoard(board, aiColor)`. */
  function Evaluation(g: Grid, c: Color): int
  {
    MaterialUpTo(g, c, 8) + CentreUpTo(g, c, 5) + CheckTerm(g, c)
  }

  lemma {:induction false} MaterialInRowAntisymmetric(g: Grid, c: Color, r: int, k: int)
    requires 0 <= r < 8 && 0 <= k <= 8
    ensures MaterialInRow(g, c, r, k) == -MaterialInRow(g, Opposite(c), r, k)
  {
    if k > 0 {
      MaterialInRowAntisymmetric(g, c, r, k - 1);
    }
  }

  /** What one side gains in material the other loses. */
  lemma {:induction false} MaterialAntisymmetric(g: Grid, c: Color, k: int)
    requires 0 <= k <= 8
    ensures MaterialUpTo(g, c, k) == -MaterialUpTo(g, Opposite(c), k)
  {
    if k > 0 {
      MaterialAntisymmetric(g, c, k - 1);
      MaterialInRowAntisymmetric(g, c, k - 1, 8);
    }
  }

  lemma {:induction false} CentreInRowSum(g: Grid, r: int, k: int)
    requires 0 <= r < 8 && 3 <= k <= 5
    ensures 0 <= CentreInRow(g, White, r, k) && 0 <= CentreInRow(g, Black, r, k)
    ensures CentreInRow(g, White, r, k) + CentreInRow(g, Black, r, k) <= 30 * (k - 3)
  {
    if k > 3 {
      CentreInRowSum(g, r, k - 1);
    }
  }

  /** The two sides' centre bonuses are each non-negative and together at most 30 per square. */
  lemma {:induction false} CentreSum(g: Grid, k: int)
    requires 3 <= k <= 5
    ensures 0 <= CentreUpTo(g, White, k) && 0 <= CentreUpTo(g, Black, k)
    ensures CentreUpTo(g, White, k) + CentreUpTo(g, Black, k) <= 60 * (k - 3)
  {
    if k > 3 {
      CentreSum(g, k - 1);
      CentreInRowSum(g, k - 1, 5);
    }
  }

  /**
   * The evaluations for the two sides are opposite except for the centre
   * bonus, which both receive: their sum is the two centre bonuses, at most
   * 4 x 30 points in all since a square holds one piece.
   */
  lemma EvaluationSymmetry(g: Grid)
    ensures Evaluation(g, White) + Evaluation(g, Black) == CentreUpTo(g, White, 5) + CentreUpTo(g, Black, 5)
    ensures 0 <= Evaluation(g, White) + Evaluation(g, Black) <= 120
  {
    MaterialAntisymmetric(g, White, 8);
    CentreSum(g, 5);
  }

  /** `evaluateBoard`: the material loop, the centre loop, then the two check tests. */
  method EvaluateBoard(b: ChessBoard, aiColor: Color) returns (score: int)
    requires b.Valid()
    ensures score == Evaluation(Snapshot(b.board), aiColor)
  {
    var material := MaterialScore(b, aiColor);
    var centre := CentreScore(b, aiColor);
    var check := CheckScore(b, aiColor);
    score := material + centre + check;
  }

  /** The two check tests that end `evaluateBoard`. */
  method CheckScore(b: ChessBoard, aiColor: Color) returns (score: int)
    requires b.Valid()
    ensures score == CheckTerm(Snapshot(b.board), aiColor)
  {
    score := 0;
    var opponentColor := if aiColor == White then Black else White;
    var opponentInCheck := b.IsKingInCheck(opponentColor);
    if opponentInCheck {
      score := score + 50;
    }
    var selfInCheck := b.IsKingInCheck(aiColor);
    if selfInCheck {
      score := score - 50;
    }
  }

  /** The first loop of `evaluateBoard`: plus the value of each own piece, minus each opposing one. */
  method MaterialScore(b: ChessBoard, aiColor: Color) returns (score: int)
    requires b.Valid()
    ensures score == MaterialUpTo(Snapshot(b.board), aiColor, 8)
  {
    ghost var g := Snapshot(b.board);
    score := 0;
    for row := 0 to 8
      invariant score == MaterialUpTo(g, aiColor, row)
    {
      ghost var before := score;
      for col := 0 to 8
        invariant score == before + MaterialInRow(g, aiColor, row, col)
      {
        var piece := b.GetPieceAt(row, col);
        assert piece == g[row][col];
        if piece.Some? {
          var pieceValue := PieceValue(piece);
          if piece.value.color == aiColor {
            score := score + pieceValue;
          } else {
            score := score - pieceValue;
          }
        }
      }
    }
  }

  /** The second loop of `evaluateBoard`: 30 for each own piece on rows 3..4, columns 3..4. */
  method CentreScore(b: ChessBoard, aiColor: Color) returns (score: int)
    requires b.Valid()
    ensures score == CentreUpTo(Snapshot(b.board), aiColor, 5)
  {
    ghost var g := Snapshot(b.board);
    score := 0;
    for row := 3 to 5
      invariant score == CentreUpTo(g, aiColor, row)
    {
      ghost var before := score;
      for col := 3 to 5
        invariant score == before + CentreInRow(g, aiColor, row, col)
      {
        var piece := b.GetPieceAt(row, col);
        assert piece == g[row][col];
        if piece.Some? && piece.value.color == aiColor {
          score := score + 30;
        }
      }
    }
  }

  // ---------------------------------------------------------------------------
  // getAllValidMoves
  // ---------------------------------------------------------------------------

  /** The test `canMove` applies to a pair, on a given state. */
  function CanMoveIn(s: GameState): (Point, Point) -> bool
  {
    (from: Point, to: Point) => Movable(s, from, to)
  }

  /**
   * The inner two loops up to target (tr, tc): the pairs (from, QPoint(tr',
   * tc')) that `accept` lets through, for the targets strictly before
   * (tr, tc) in row-major order.
   */
  function TargetsBefore(accept: (Point, Point) -> bool, from: Point, tr: int, tc: int): seq<MovePair>
    requires 0 <= tr <= 8 && 0 <= tc <= 8 && (tr < 8 || tc == 0)
    decreases tr, tc
  {
    if tc == 0 then
      (if tr == 0 then [] else TargetsBefore(accept, from, tr - 1, 8))
    else
      (TargetsBefore(accept, from, tr, tc - 1) +
       if accept(from, Point(tr, tc - 1)) then [(from, Point(tr, tc - 1))] else [])
  }

  /**
   * The outer two loops up to origin (row, col): for each earlier square
   * holding a piece of colour `c`, the origin `QPoint(row', col')` with all
   * its targets.
   */
  function OriginsBefore(accept: (Point, Point) -> bool, g: Grid, c: Color, row: int, col: int): seq<MovePair>
    requires 0 <= row <= 8 && 0 <= col <= 8 && (row < 8 || col == 0)
    decreases row, col
  {
    if col == 0 then
      (if row == 0 then [] else OriginsBefore(accept, g, c, row - 1, 8))
    else
      (OriginsBefore(accept, g, c, row, col - 1) +
       if g[row][col - 1].Some? && g[row][col - 1].value.color == c
       then TargetsBefore(accept, Point(row, col - 1), 8, 0) else [])
  }

  /** `getAllValidMoves(board, color)`. */
  function AllValidMoves(s: GameState, c: Color): seq<MovePair>
  {
    OriginsBefore(CanMoveIn(s), s.grid, c, 8, 0)
  }

  lemma {:induction false} TargetsBeforeMembers(accept: (Point, Point) -> bool, from: Point, tr: int, tc: int, m: MovePair)
    requires 0 <= tr <= 8 && 0 <= tc <= 8 && (tr < 8 || tc == 0)
    ensures m in TargetsBefore(accept, from, tr, tc) <==>
      m.0 == from && 0 <= m.1.x < 8 && 0 <= m.1.y < 8 && Before(m.1.x, m.1.y, tr, tc) && accept(from, m.1)
    decreases tr, tc
  {
    if tc == 0 {
      if tr > 0 {
        TargetsBeforeMembers(accept, from, tr - 1, 8, m);
      }
    } else {
      TargetsBeforeMembers(accept, from, tr, tc - 1, m);
      var to := Point(tr, tc - 1);
      assert m in TargetsBefore(accept, from, tr, tc) <==>
        m in TargetsBefore(accept, from, tr, tc - 1) || (accept(from, to) && m == (from, to));
      assert Before(m.1.x, m.1.y, tr, tc) <==> Before(m.1.x, m.1.y, tr, tc - 1) || m.1 == to;
    }
  }

  /** Origin `o` is a square holding a piece of colour `c`, strictly before (row, col). */
  predicate OriginBefore(g: Grid, c: Color, o: Point, row: int, col: int)
  {
    0 <= o.x < 8 && 0 <= o.y < 8 && Before(o.x, o.y, row, col) &&
    g[o.x][o.y].Some? && g[o.x][o.y].value.color == c
  }

  lemma {:induction false} OriginsBeforeMembers(accept: (Point, Point) -> bool, g: Grid, c: Color, row: int, col: int, m: MovePair)
    requires 0 <= row <= 8 && 0 <= col <= 8 && (row < 8 || col == 0)
    ensures m in OriginsBefore(accept, g, c, row, col) <==>
      OriginBefore(g, c, m.0, row, col) && 0 <= m.1.x < 8 && 0 <= m.1.y < 8 && accept(m.0, m.1)
    decreases row, col
  {
    if col == 0 {
      if row > 0 {
        OriginsBeforeMembers(accept, g, c, row - 1, 8, m);
        assert OriginsBefore(accept, g, c, row, 0) == OriginsBefore(accept, g, c, row - 1, 8);
        assert OriginBefore(g, c, m.0, row, 0) == OriginBefore(g, c, m.0, row - 1, 8);
      }
    } else {
      OriginsBeforeMembers(accept, g, c, row, col - 1, m);
      var from := Point(row, col - 1);
      TargetsBeforeMembers(accept, from, 8, 0, m);
      var here := g[row][col - 1].Some? && g[row][col - 1].value.color == c;
      var ts := if here then TargetsBefore(accept, from, 8, 0) else [];
      assert OriginsBefore(accept, g, c, row, col) == OriginsBefore(accept, g, c, row, col - 1) + ts;
      if m.0 == from {
        assert m in ts <==> here && 0 <= m.1.x < 8 && 0 <= m.1.y < 8 && accept(from, m.1);
        assert !OriginBefore(g, c, m.0, row, col - 1);
        assert OriginBefore(g, c, m.0, row, col) == here;
      } else {
        assert m !in ts;
        assert OriginBefore(g, c, m.0, row, col) == OriginBefore(g, c, m.0, row, col - 1);
      }
    }
  }

  /**
   * A pair is listed exactly when its origin `QPoint(row, col)` names a
   * square [row][col] holding a piece of colour `c`, both coordinates of
   * both points lie in 0..7, and `canMove` accepts the pair (reading the
   * origin as column `row`, row `col`).
   */
  lemma AllValidMovesMembers(s: GameState, c: Color, m: MovePair)
    ensures m in AllValidMoves(s, c) <==>
      0 <= m.0.x < 8 && 0 <= m.0.y < 8 && 0 <= m.1.x < 8 && 0 <= m.1.y < 8 &&
      s.grid[m.0.x][m.0.y].Some? && s.grid[m.0.x][m.0.y].value.color == c &&
      Movable(s, m.0, m.1)
  {
    OriginsBeforeMembers(CanMoveIn(s), s.grid, c, 8, 0, m);
    OriginBeforeEnd(s.grid, c, m.0);
  }

  /** Every square of the board comes before the end position (8, 0). */
  lemma OriginBeforeEnd(g: Grid, c: Color, o: Point)
    ensures OriginBefore(g, c, o, 8, 0) <==>
      0 <= o.x < 8 && 0 <= o.y < 8 && g[o.x][o.y].Some? && g[o.x][o.y].value.color == c
  {
    if 0 <= o.x < 8 && 0 <= o.y < 8 {
      assert Before(o.x, o.y, 8, 0);
    }
  }

  /** `getAllValidMoves`: four nested loops appending each accepted pair. */
  method GetAllValidMoves(b: ChessBoard, color: Color) returns (validMoves: seq<MovePair>)
    requires b.Valid()
    ensures validMoves == AllValidMoves(b.State(), color)
  {
    ghost var s := b.State();
    validMoves := [];
    for row := 0 to 8
      invariant validMoves == OriginsBefore(CanMoveIn(s), s.grid, color, row, 0)
    {
      for col := 0 to 8
        invariant validMoves == OriginsBefore(CanMoveIn(s), s.grid, color, row, col)
      {
        var piece := b.GetPieceAt(row, col);
        if piece.Some? && piece.value.color == color {
          var from := Point(row, col);
          var found := TargetsOf(b, from);
          validMoves := validMoves + found;
        }
      }
    }
  }

  /** The two inner loops of `getAllValidMoves` for one origin. */
  method TargetsOf(b: ChessBoard, from: Point) returns (found: seq<MovePair>)
    requires b.Valid()
    ensures found == TargetsBefore(CanMoveIn(b.State()), from, 8, 0)
  {
    ghost var accept := CanMoveIn(b.State());
    found := [];
    for toRow := 0 to 8
      invariant found == TargetsBefore(accept, from, toRow, 0)
    {
      for toCol := 0 to 8
        invariant found == TargetsBefore(accept, from, toRow, toCol)
      {
        var to := Point(toRow, toCol);
        var ok := b.CanMove(from, to);
        assert ok == accept(from, to);
        if ok {
          found := found + [(from, to)];
        }
      }
    }
  }

  // ---------------------------------------------------------------------------
  // getBasicEvaluationMove
  // ---------------------------------------------------------------------------

  /** The score of a candidate: the value of what stands on `getPieceAt(to)`, plus 30 for a centre target. */
  function MoveScore(g: Grid, m: MovePair): (score: int)
    ensures 0 <= score <= 20030
    ensures PieceAtPoint(g, m.1).None? ==> score <= 30
  {
    var toRow, toCol := m.1.x, m.1.y;
    PieceValue(PieceAtPoint(g, m.1)) + (if 3 <= toRow <= 4 && 3 <= toCol <= 4 then 30 else 0)
  }

  /** The score computed in the loop of `getBasicEvaluationMove` for one candidate. */
  method ScoreOf(b: ChessBoard, move: MovePair) returns (moveScore: int)
    requires b.Valid()
    ensures moveScore == MoveScore(Snapshot(b.board), move)
  {
    var capturedPiece := b.GetPieceAt(move.1.y, move.1.x);
    var captureValue := PieceValue(capturedPiece);
    moveScore := captureValue;
    var toRow := move.1.x;
    var toCol := move.1.y;
    if toRow >= 3 && toRow <= 4 && toCol >= 3 && toCol <= 4 {
      moveScore := moveScore + 30;
    }
  }

  /** `std::numeric_limits<int>::min()`. */
  const IntMin: int := -0x8000_0000

  /**
   * Move `ms[i]` is the one the scoring loop keeps: no candidate scores more,
   * and every earlier one scores less (the strict `>` keeps the earliest of
   * equal scores).
   */
  ghost predicate FirstBest(g: Grid, ms: seq<MovePair>, i: int)
  {
    0 <= i < |ms| &&
    (forall j :: 0 <= j < |ms| ==> MoveScore(g, ms[j]) <= MoveScore(g, ms[i])) &&
    (forall j :: 0 <= j < i ==> MoveScore(g, ms[j]) < MoveScore(g, ms[i]))
  }

  /**
   * `getBasicEvaluationMove`: (-1, -1) twice when there is no valid move;
   * otherwise the first of the valid moves with the greatest score.
   */
  method GetBasicEvaluationMove(b: ChessBoard, aiColor: Color) returns (bestMove: MovePair)
    requires b.Valid()
    ensures var ms := AllValidMoves(b.State(), aiColor);
      (ms == [] ==> bestMove == NoMove) &&
      (ms != [] ==> exists i :: FirstBest(Snapshot(b.board), ms, i) && bestMove == ms[i])
  {
    var validMoves := GetAllValidMoves(b, aiColor);
    if |validMoves| == 0 {
      return NoMove;
    }
    bestMove := BestOf(b, validMoves);
  }

  /** The scoring loop of `getBasicEvaluationMove` over a non-empty list of candidates. */
  method BestOf(b: ChessBoard, validMoves: seq<MovePair>) returns (bestMove: MovePair)
    requires b.Valid() && validMoves != []
    ensures exists i :: FirstBest(Snapshot(b.board), validMoves, i) && bestMove == validMoves[i]
  {
    ghost var g := Snapshot(b.board);
    ghost var sc := seq(|validMoves|, j requires 0 <= j < |validMoves| => MoveScore(g, validMoves[j]));
    bestMove := validMoves[0];
    var bestScore := IntMin;
    ghost var bi := 0;
    for k := 0 to |validMoves|
      invariant 0 <= bi < |validMoves| && bestMove == validMoves[bi]
      invariant k == 0 ==> bi == 0 && bestScore == IntMin
      invariant k > 0 ==> bi < k && bestScore == sc[bi]
      invariant forall j :: 0 <= j < k ==> sc[j] <= bestScore
      invariant forall j :: 0 <= j < bi ==> sc[j] < bestScore
    {
      var move := validMoves[k];
      var moveScore := ScoreOf(b, move);
      assert moveScore == sc[k];
      if moveScore > bestScore {
        bestScore := moveScore;
        bestMove := move;
        bi := k;
      }
    }
    assert forall j :: 0 <= j < |validMoves| ==> sc[j] == MoveScore(g, validMoves[j]);
    assert FirstBest(g, validMoves, bi);
  }

  // ---------------------------------------------------------------------------
  // moveToUci, uciToMove
  // ---------------------------------------------------------------------------

  /** `moveToUci(from, to)` with `from`, `to` as `QPoint(row, col)`: file 'a' + col, rank '8' - row. */
  function MoveToUci(from: Point, to: Point): (u: string)
    ensures |u| == 4
  {
    [Latin1('a' as int + from.y), Latin1('8' as int - from.x),
     Latin1('a' as int + to.y), Latin1('8' as int - to.x)]
  }

  /** `uciToMove(uci)`: (-1, -1) twice for fewer than four characters. */
  function UciToMove(uci: string): (m: MovePair)
    ensures |uci| < 4 ==> m == NoMove
  {
    if |uci| < 4 then NoMove
    else
      var fromCol := SignedLatin1(uci[0]) - 'a' as int;
      var fromRow := '8' as int - SignedLatin1(uci[1]);
      var toCol := SignedLatin1(uci[2]) - 'a' as int;
      var toRow := '8' as int - SignedLatin1(uci[3]);
      (Point(fromRow, fromCol), Point(toRow, toCol))
  }

  predicate OnBoard(p: Point)
  {
    0 <= p.x < 8 && 0 <= p.y < 8
  }

  /** For squares on the board, decoding an encoded move gives it back. */
  lemma UciRoundTrip(from: Point, to: Point)
    requires OnBoard(from) && OnBoard(to)
    ensures UciToMove(MoveToUci(from, to)) == (from, to)
  {
    var u := MoveToUci(from, to);
    Latin1RoundTrip('a' as int + from.y);
    Latin1RoundTrip('8' as int - from.x);
    Latin1RoundTrip('a' as int + to.y);
    Latin1RoundTrip('8' as int - to.x);
  }

  /** An encoded on-board move is a file letter a..h and a rank digit 1..8, twice. */
  lemma MoveToUciShape(from: Point, to: Point)
    requires OnBoard(from) && OnBoard(to)
    ensures var u := MoveToUci(from, to);
      'a' <= u[0] <= 'h' && '1' <= u[1] <= '8' && 'a' <= u[2] <= 'h' && '1' <= u[3] <= '8'
  {
  }

  // ---------------------------------------------------------------------------
  // boardToFen
  // ---------------------------------------------------------------------------

  /** The en-passant field: file 'a' + y, rank '8' - x of the target, or "-" when a coordinate is negative. */
  function AiEnPassantField(ep: Point): string
  {
    if ep.x >= 0 && ep.y >= 0 then [Latin1('a' as int + ep.y), Latin1('8' as int - ep.x)] else "-"
  }

  /** The castling field of chessai.cpp: the rights `canCastle` grants, in K, Q, k, q order. */
  function AiCastlingField(g: Grid): string
  {
    CastlingField(CastlingAllowed(g, White, true), CastlingAllowed(g, White, false),
                  CastlingAllowed(g, Black, true), CastlingAllowed(g, Black, false))
  }

  /** `boardToFen(board, currentTurn)`: rows 0..7, the side to move, castling, en passant, "0 1". */
  function AiFen(s: GameState, turn: Color): string
  {
    FenString(Placement(s.grid, TopDown), TurnLetter(turn), AiCastlingField(s.grid), AiEnPassantField(s.ep))
  }

  /**
   * For a board whose en-passant target is (-1, -1) or on the board, the FEN
   * of chessai.cpp splits on spaces into six fields: the placement of rows 0
   * to 7, "w" or "b", the castling letters of the `canCastle` rights, the
   * en-passant square (a file letter and a rank digit) or "-", "0" and "1".
   */
  lemma AiFenFields(s: GameState, turn: Color)
    requires EpWellFormed(s.ep)
    ensures var ep := AiEnPassantField(s.ep);
      Split(AiFen(s, turn), ' ') ==
        [Placement(s.grid, TopDown), TurnLetter(turn), AiCastlingField(s.grid), ep, "0", "1"]
    ensures var ep := AiEnPassantField(s.ep);
      ep == "-" || (|ep| == 2 && 'a' <= ep[0] <= 'h' && '1' <= ep[1] <= '8')
  {
    PlacementNoSpace(s.grid, TopDown);
    AiCastlingNoSpace(s.grid);
    AiEnPassantShape(s.ep);
    FenFields(Placement(s.grid, TopDown), TurnLetter(turn), AiCastlingField(s.grid), AiEnPassantField(s.ep));
  }

  lemma AiCastlingNoSpace(g: Grid)
    ensures ' ' !in AiCastlingField(g)
  {
    CastlingFieldNoSpace(CastlingAllowed(g, White, true), CastlingAllowed(g, White, false),
                         CastlingAllowed(g, Black, true), CastlingAllowed(g, Black, false));
  }

  lemma AiEnPassantShape(ep: Point)
    requires EpWellFormed(ep)
    ensures var f := AiEnPassantField(ep);
      f == "-" || (|f| == 2 && 'a' <= f[0] <= 'h' && '1' <= f[1] <= '8')
  {
  }

  /** `boardToFen`, writing the same string field by field. */
  method BoardToFen(b: ChessBoard, currentTurn: Color) returns (fen: string)
    requires b.Valid()
    ensures fen == AiFen(b.State(), currentTurn)
  {
    ghost var s := b.State();
    var placement := WritePlacement(b.board, TopDown);
    fen := placement;
    fen := fen + (if currentTurn == White then " w " else " b ");
    assert fen == placement + " " + TurnLetter(currentTurn) + " ";
    var castling := CastlingRights(b);
    fen := fen + castling + " ";
    var enPassant := b.enPassantTarget;
    var ep := "-";
    if enPassant.x >= 0 && enPassant.y >= 0 {
      ep := [Latin1('a' as int + enPassant.y), Latin1('8' as int - enPassant.x)];
    }
    fen := fen + ep;
    fen := fen + " 0 1";
    assert fen == FenString(placement, TurnLetter(currentTurn), castling, ep);
    assert placement == Placement(s.grid, TopDown) && castling == AiCastlingField(s.grid) && ep == AiEnPassantField(s.ep);
  }

  /** The castling part of `boardToFen`: a letter for each right `canCastle` grants. */
  method CastlingRights(b: ChessBoard) returns (castling: string)
    requires b.Valid()
    ensures castling == AiCastlingField(Snapshot(b.board))
  {
    var wk := b.CanCastle(White, true);
    var wq := b.CanCastle(White, false);
    var bk := b.CanCastle(Black, true);
    var bq := b.CanCastle(Black, false);
    castling := WriteCastlingField(wk, wq, bk, bq);
  }

  // ---------------------------------------------------------------------------
  // getMovesInUci
  // ---------------------------------------------------------------------------

  /** The promotion letter of `getMovesInUci`. */
  function PromotionChar(k: Kind): char
  {
    match k
    case Queen => 'q'
    case Rook => 'r'
    case Bishop => 'b'
    case Knight => 'n'
    case _ => 'q'
  }

  /** One history entry in UCI: the four-character move, plus the promotion letter. */
  function UciOfMove(m: Move): string
  {
    MoveToUci(m.from, m.to) + (if m.wasPromotion then [PromotionChar(m.promotedTo)] else [])
  }

  /**
   * Every entry is four characters, or five when it records a promotion,
   * the fifth being one of q, r, b, n; the first four are the move itself.
   */
  lemma UciOfMoveShape(m: Move)
    ensures var u := UciOfMove(m);
      (|u| == 4 <==> !m.wasPromotion) && (|u| == 5 <==> m.wasPromotion) &&
      u[..4] == MoveToUci(m.from, m.to) &&
      (m.wasPromotion ==> u[4] in "qrbn")
  {
  }

  /** `getMovesInUci(board)`: one string per history entry, in order. */
  method GetMovesInUci(b: ChessBoard) returns (uciMoves: seq<string>)
    requires b.Valid()
    ensures |uciMoves| == |b.moveHistory|
    ensures forall i :: 0 <= i < |uciMoves| ==> uciMoves[i] == UciOfMove(b.moveHistory[i])
  {
    var history := b.moveHistory;
    uciMoves := [];
    for i := 0 to |history|
      invariant |uciMoves| == i
      invariant forall j :: 0 <= j < i ==> uciMoves[j] == UciOfMove(history[j])
    {
      var move := history[i];
      var uci := MoveToUci(move.from, move.to);
      if move.wasPromotion {
        var promotionChar := 'q';
        match move.promotedTo {
          case Queen => promotionChar := 'q';
          case Rook => promotionChar := 'r';
          case Bishop => promotionChar := 'b';
          case Knight => promotionChar := 'n';
          case _ =>
        }
        uci := uci + [promotionChar];
      }
      uciMoves := uciMoves + [uci];
    }
  }
}
