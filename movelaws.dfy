/**
 * What one successful `movePiece` does to the game state, proved about `Step`:
 * the turn and history bookkeeping, the en-passant target, the en-passant
 * capture, promotion, castling and the plain move, and the consequence of
 * the post-move evaluation examining the colour that just moved.
 */
module MoveLaws {
  import opened Core
  import opened Pieces
  import opened Attacks
  import opened GameRules

  /** The piece a legal move picks up. */
  function Mover(s: GameState, from: Point): Piece
    requires IsValidPosition(from.y, from.x) && s.grid[from.y][from.x].Some?
  {
    s.grid[from.y][from.x].value
  }

  /** A legal move never starts and ends on the same square. */
  lemma LegalMovesAway(s: GameState, from: Point, to: Point)
    requires WellFormed(s) && Legal(s, from, to)
    ensures Playable(s, from, to) && to != from
  {
    var p := Mover(s, from);
    RulesRejectOffBoardAndOwnSquare(s.grid, s.ep, p, to);
  }

  // ---------------------------------------------------------------------------
  // Bookkeeping
  // ---------------------------------------------------------------------------

  /**
   * The turn passes to the other colour, exactly one history entry is
   * appended and it names the move, every piece (the moved one included)
   * stores the square it stands on, and the en-passant target stays well
   * formed.
   */
  lemma StepBookkeeping(s: GameState, from: Point, to: Point)
    requires WellFormed(s) && Legal(s, from, to)
    ensures var t := Step(s, from, to);
      t.turn == Opposite(s.turn) && t.turn != s.turn &&
      |t.history| == |s.history| + 1 && t.history[..|s.history|] == s.history &&
      t.history[|s.history|].from == from && t.history[|s.history|].to == to &&
      WellFormed(t)
  {
    LegalMovesAway(s, from, to);
    StepKeepsWellFormed(s, from, to);
    var t := Step(s, from, to);
    assert t.history[..|s.history|] == s.history;
  }

  /** The status flag is sticky: once over, a game stays over. */
  lemma StepKeepsGameOver(s: GameState, from: Point, to: Point)
    requires WellFormed(s) && Legal(s, from, to) && s.over
    ensures Step(s, from, to).over
  {
  }

  // ---------------------------------------------------------------------------
  // En passant
  // ---------------------------------------------------------------------------

  /**
   * The new en-passant target is set exactly when a pawn moved two rows, and
   * then it is the square it skipped: same column, one row from each end.
   */
  lemma StepEnPassantTarget(s: GameState, from: Point, to: Point)
    requires WellFormed(s) && Legal(s, from, to)
    ensures var t, p := Step(s, from, to), Mover(s, from);
      (t.ep != NoSquare <==> p.kind == Pawn && Abs(to.y - from.y) == 2) &&
      (t.ep != NoSquare ==>
        t.ep.x == from.x && Abs(t.ep.y - from.y) == 1 && Abs(t.ep.y - to.y) == 1)
  {
  }

  /**
   * A pawn moving onto the en-passant target empties the square behind it,
   * as seen from the mover, and the history records that square's piece as
   * captured.
   */
  lemma StepEnPassantCapture(s: GameState, from: Point, to: Point)
    requires WellFormed(s) && Legal(s, from, to)
    requires IsEnPassant(s, Mover(s, from), to)
    ensures var t, p := Step(s, from, to), Mover(s, from);
      var row := if p.color == White then to.y + 1 else to.y - 1;
      IsValidPosition(row, to.x) &&
      t.grid[row][to.x].None? &&
      t.history[|s.history|].wasEnPassant &&
      t.history[|s.history|].captured == s.grid[row][to.x]
  {
    LegalMovesAway(s, from, to);
    var p := Mover(s, from);
    var row := CaptureRow(p, to);
    var g1 := AfterCapture(s, from, to);
    assert g1[row][to.x].None?;
  }

  // ---------------------------------------------------------------------------
  // Promotion, castling and the plain move
  // ---------------------------------------------------------------------------

  /** A pawn reaching the far row becomes a queen of the mover's colour on `to`; `from` is emptied. */
  lemma StepPromotes(s: GameState, from: Point, to: Point)
    requires WellFormed(s) && Legal(s, from, to)
    requires Mover(s, from).kind == Pawn
    requires (s.turn == White && to.y == 0) || (s.turn == Black && to.y == 7)
    ensures var t := Step(s, from, to);
      t.grid[to.y][to.x] == Some(Piece(Queen, s.turn, to, true)) &&
      t.grid[from.y][from.x].None? &&
      t.history[|s.history|].wasPromotion && t.history[|s.history|].promotedTo == Queen &&
      !t.history[|s.history|].wasCastling
  {
    LegalMovesAway(s, from, to);
  }

  /**
   * A king moving two columns castles on its colour's home row (whatever
   * row it moved on), as `performCastling` does, with no rook or board
   * condition beyond the king's own rule and the simulated-check test.
   */
  lemma StepCastles(s: GameState, from: Point, to: Point)
    requires WellFormed(s) && Legal(s, from, to)
    requires Mover(s, from).kind == King && Abs(to.x - from.x) == 2
    ensures var t := Step(s, from, to);
      t.grid == Castled(s.grid, s.turn, to.x > from.x) &&
      t.history[|s.history|].wasCastling && !t.history[|s.history|].wasPromotion &&
      !t.history[|s.history|].wasEnPassant
  {
  }

  /**
   * Any other move carries the piece to `to` with its stored position set to
   * `to` and its moved flag set, empties `from`, and changes no other square
   * except the one an en-passant capture empties.
   */
  lemma StepMovesPiece(s: GameState, from: Point, to: Point)
    requires WellFormed(s) && Legal(s, from, to)
    requires !IsPromotion(Mover(s, from), to) && !IsCastling(Mover(s, from), from, to)
    ensures var t, p := Step(s, from, to), Mover(s, from);
      t.grid[to.y][to.x] == Some(p.(pos := to, hasMoved := true)) &&
      t.grid[from.y][from.x].None? &&
      forall r, k ::
        (0 <= r < 8 && 0 <= k < 8 && Point(k, r) != from && Point(k, r) != to &&
         !(IsEnPassant(s, p, to) && r == CaptureRow(p, to) && k == to.x)) ==>
        t.grid[r][k] == s.grid[r][k]
  {
    LegalMovesAway(s, from, to);
  }

  /** A legal king move of two columns needs no rook: `canCastle` is never consulted. */
  lemma CastlingNeedsNoRook(s: GameState, from: Point, to: Point)
    requires WellFormed(s) && IsValidPosition(from.y, from.x)
    requires IsA(s.grid[from.y][from.x], King, s.turn) && !Mover(s, from).hasMoved
    requires to.y == from.y && Abs(to.x - from.x) == 2 && IsValidPosition(to.y, to.x)
    requires !LeavesKingInCheck(s.grid, from, to, s.turn)
    ensures Legal(s, from, to)
  {
    KingTwoColumnsIgnoresBoard(s.grid, s.grid, Mover(s, from), to);
  }

  /**
   * The converse direction: whenever `canCastle` grants a side to the player
   * to move, `movePiece` accepts the king's two-column move towards it.
   */
  lemma CastlingAllowedIsLegal(s: GameState, kingSide: bool)
    requires WellFormed(s) && IsA(s.grid[HomeRow(s.turn)][4], King, s.turn)
    requires CastlingAllowed(s.grid, s.turn, kingSide)
    ensures Legal(s, Point(4, HomeRow(s.turn)), Point(if kingSide then 6 else 2, HomeRow(s.turn)))
  {
    var row := HomeRow(s.turn);
    var to := CastlingSquare(s.turn, kingSide, 2);
    assert !LeavesKingInCheck(s.grid, Point(4, row), to, s.turn);
    CastlingNeedsNoRook(s, Point(4, row), to);
  }

  // ---------------------------------------------------------------------------
  // Evaluation after the move
  // ---------------------------------------------------------------------------

  /** `isCheckmate` and `isStalemate` exclude each other, and both fail when a legal move exists. */
  lemma MateAndStalemateExclusive(g: Grid, ep: Point, c: Color)
    ensures !(Checkmated(g, ep, c) && Stalemated(g, ep, c))
    ensures HasLegalMove(g, ep, c) ==> !Checkmated(g, ep, c) && !Stalemated(g, ep, c)
    ensures Checkmated(g, ep, c) || Stalemated(g, ep, c) <==> !HasLegalMove(g, ep, c)
  {
  }

  /** The kind and colour on a square, forgetting the stored position and moved flag. */
  function Material(o: Option<Piece>): Option<(Kind, Color)>
  {
    if o.None? then None else Some((o.value.kind, o.value.color))
  }

  /** Two boards with the same kind and colour on every square. */
  predicate SameMaterial(g: Grid, h: Grid)
  {
    forall r, k :: 0 <= r < 8 && 0 <= k < 8 ==> Material(g[r][k]) == Material(h[r][k])
  }

  lemma {:induction false} RayHitMaterial(g: Grid, h: Grid, x: int, y: int, dx: int, dy: int, c: Color, k: Kind)
    requires SameMaterial(g, h) && IsDirection(dx, dy)
    ensures RayHit(g, x, y, dx, dy, c, k) == RayHit(h, x, y, dx, dy, c, k)
    decreases RayLeft(x, y, dx, dy)
  {
    if IsValidPosition(y, x) {
      assert Material(g[y][x]) == Material(h[y][x]);
      if g[y][x].None? {
        RayHitMaterial(g, h, x + dx, y + dy, dx, dy, c, k);
      }
    }
  }

  /** `isSquareAttacked` reads only the kind and colour of each square. */
  lemma AttackedMaterial(g: Grid, h: Grid, sq: Point, c: Color)
    requires SameMaterial(g, h)
    ensures Attacked(g, sq, c) == Attacked(h, sq, c)
  {
    forall row, col | IsValidPosition(row, col)
      ensures Material(PieceAt(g, row, col)) == Material(PieceAt(h, row, col))
    {
      assert Material(g[row][col]) == Material(h[row][col]);
    }
    assert PawnAttack(g, sq, c) == PawnAttack(h, sq, c);
    assert forall i :: 0 <= i < 8 ==> KnightAt(g, sq, c, i) == KnightAt(h, sq, c, i);
    forall i | 0 <= i < 4
      ensures RayFrom(g, sq, c, Orthogonal[i], Rook) == RayFrom(h, sq, c, Orthogonal[i], Rook)
      ensures RayFrom(g, sq, c, Diagonal[i], Bishop) == RayFrom(h, sq, c, Diagonal[i], Bishop)
    {
      var o, d := Orthogonal[i], Diagonal[i];
      RayHitMaterial(g, h, sq.x + o.0, sq.y + o.1, o.0, o.1, c, Rook);
      RayHitMaterial(g, h, sq.x + d.0, sq.y + d.1, d.0, d.1, c, Bishop);
    }
    assert forall dx, dy :: KingAt(g, sq, c, dx, dy) == KingAt(h, sq, c, dx, dy);
  }

  lemma {:induction false} FindKingFromMaterial(g: Grid, h: Grid, c: Color, row: int, col: int)
    requires SameMaterial(g, h) && 0 <= row <= 8 && 0 <= col <= 8
    ensures FindKingFrom(g, c, row, col) == FindKingFrom(h, c, row, col)
    decreases 8 - row, 8 - col
  {
    if row < 8 {
      if col == 8 {
        FindKingFromMaterial(g, h, c, row + 1, 0);
      } else {
        assert Material(g[row][col]) == Material(h[row][col]);
        assert IsA(g[row][col], King, c) == IsA(h[row][col], King, c);
        FindKingFromMaterial(g, h, c, row, col + 1);
      }
    }
  }

  /** `isKingInCheck` reads only the kind and colour of each square. */
  lemma InCheckMaterial(g: Grid, h: Grid, c: Color)
    requires SameMaterial(g, h)
    ensures InCheck(g, c) == InCheck(h, c)
  {
    FindKingFromMaterial(g, h, c, 0, 0);
    AttackedMaterial(g, h, FindKing(g, c), Opposite(c));
  }

  /** At most one king of colour c on the board. */
  predicate OneKing(g: Grid, c: Color)
  {
    forall r1, k1, r2, k2 ::
      (0 <= r1 < 8 && 0 <= k1 < 8 && 0 <= r2 < 8 && 0 <= k2 < 8 &&
       IsA(g[r1][k1], King, c) && IsA(g[r2][k2], King, c)) ==> r1 == r2 && k1 == k2
  }

  /**
   * After a legal move other than en passant, promotion or castling, the
   * colour that moved is never in check: the board `wouldBeInCheck`
   * simulated has the same kinds and colours as the board the move leaves.
   */
  lemma MoverNotInCheckAfterMove(s: GameState, from: Point, to: Point)
    requires WellFormed(s) && Legal(s, from, to) && OneKing(s.grid, s.turn)
    requires !IsEnPassant(s, Mover(s, from), to)
    requires !IsPromotion(Mover(s, from), to) && !IsCastling(Mover(s, from), from, to)
    ensures !InCheck(Step(s, from, to).grid, s.turn)
  {
    LegalMovesAway(s, from, to);
    var p, c := Mover(s, from), s.turn;
    var tmp, g := Simulate(s.grid, from, to), Step(s, from, to).grid;
    StepMovesPiece(s, from, to);
    assert SameMaterial(tmp, g) by {
      forall r, k | 0 <= r < 8 && 0 <= k < 8
        ensures Material(tmp[r][k]) == Material(g[r][k])
      {
        if Point(k, r) != from && Point(k, r) != to {
          assert tmp[r][k] == s.grid[r][k] == g[r][k];
        }
      }
    }
    InCheckMaterial(tmp, g, c);
    if p.kind == King {
      var kp := FindKing(g, c);
      assert IsA(g[to.y][to.x], King, c);
      assert kp != NoSquare;
      if kp != to {
        assert Point(kp.x, kp.y) != from;
        assert g[kp.y][kp.x] == s.grid[kp.y][kp.x];
        assert IsA(s.grid[from.y][from.x], King, c);
        assert false;
      }
      AttackedMaterial(tmp, g, to, Opposite(c));
    }
  }

  /**
   * Hence the status such a move sets is never a check or a checkmate: it is
   * "Stalemate - Draw!" when the mover has no legal reply of its own, and
   * "Game in progress" otherwise.
   */
  lemma StatusAfterMoveNeverCheck(s: GameState, from: Point, to: Point)
    requires WellFormed(s) && Legal(s, from, to) && OneKing(s.grid, s.turn)
    requires !IsEnPassant(s, Mover(s, from), to)
    requires !IsPromotion(Mover(s, from), to) && !IsCastling(Mover(s, from), from, to)
    ensures var t := Step(s, from, to);
      t.status == (if HasLegalMove(t.grid, t.ep, s.turn) then "Game in progress" else "Stalemate - Draw!") &&
      t.over == (s.over || !HasLegalMove(t.grid, t.ep, s.turn))
  {
    MoverNotInCheckAfterMove(s, from, to);
  }

  // ---------------------------------------------------------------------------
  // The transposed path read, on the starting position
  // ---------------------------------------------------------------------------

  /**
   * On the starting board the white bishop on QPoint(2, 7) may go to
   * QPoint(4, 5) although the white pawn on [6][3] stands between them: the
   * path loop reads square (3, 6) as row 3, column 6, which is empty. Every
   * rule and the simulated-check test accept, so it is a legal first move.
   */
  lemma BishopPassesOwnPawnAtStart()
    ensures IsA(InitialGrid()[6][3], Pawn, White)
    ensures BishopRule(InitialGrid(), InitialGrid()[7][2].value, Point(4, 5))
    ensures Legal(InitialState(), Point(2, 7), Point(4, 5))
  {
    BishopRuleAtStart();
    BishopMovableAtStart();
    BishopKeepsKingSafeAtStart();
  }

  /** The bishop's move passes `isValidMove`'s checks on the starting position. */
  lemma BishopMovableAtStart()
    ensures Movable(InitialState(), Point(2, 7), Point(4, 5))
  {
    var g := InitialGrid();
    BishopRuleAtStart();
    assert MoveRule(g, NoSquare, g[7][2].value, Point(4, 5));
  }

  /** After the bishop's move on the starting position the white king is not attacked. */
  lemma BishopKeepsKingSafeAtStart()
    ensures !LeavesKingInCheck(InitialGrid(), Point(2, 7), Point(4, 5), White)
  {
    var tmp := Simulate(InitialGrid(), Point(2, 7), Point(4, 5));
    KingFoundAtStart(tmp);
    AttackedAtStart(tmp);
  }

  /** The bishop's own rule: the one square it reads on the way is [3][6], which is empty. */
  lemma BishopRuleAtStart()
    ensures InitialGrid()[7][2] == Some(Piece(Bishop, White, Point(2, 7), false))
    ensures BishopRule(InitialGrid(), InitialGrid()[7][2].value, Point(4, 5))
  {
    var g := InitialGrid();
    assert g[3][6].None? && g[5][4].None?;
    assert PathClear(g, 3, 6, 1, -1, 1);
  }

  /** After the bishop move, the white king is still the first one found, on [7][4]. */
  lemma KingFoundAtStart(tmp: Grid)
    requires tmp == Simulate(InitialGrid(), Point(2, 7), Point(4, 5))
    ensures FindKing(tmp, White) == Point(4, 7)
  {
    var g := InitialGrid();
    assert IsA(tmp[7][4], King, White);
    forall r, k | 0 <= r < 8 && 0 <= k < 8 && Before(r, k, 7, 4)
      ensures !IsA(tmp[r][k], King, White)
    {
      if Point(k, r) != Point(4, 5) && Point(k, r) != Point(2, 7) {
        assert tmp[r][k] == g[r][k];
      }
    }
  }

  /** After the bishop move, nothing black attacks the white king's square [7][4]. */
  lemma AttackedAtStart(tmp: Grid)
    requires tmp == Simulate(InitialGrid(), Point(2, 7), Point(4, 5))
    ensures !Attacked(tmp, Point(4, 7), Black)
  {
    var g := InitialGrid();
    assert forall r, k :: 0 <= r < 8 && 0 <= k < 8 && 2 <= r ==> tmp[r][k].None? || tmp[r][k].value.color == White;
    assert forall i :: 0 <= i < 8 ==> !KnightAt(tmp, Point(4, 7), Black, i);
    forall i | 0 <= i < 4
      ensures !RayFrom(tmp, Point(4, 7), Black, Orthogonal[i], Rook)
      ensures !RayFrom(tmp, Point(4, 7), Black, Diagonal[i], Bishop)
    {
    }
  }
}
