/**
 * The Stockfish wrapper of stockfishengine.cpp: the skill-level options and
 * think time, the FEN string it sends, the decoding of the engine's
 * "bestmove" answer, and the engine object that ties them together.
 *
 * Convention of this file: a square is `QPoint(row, col)` with file letter
 * 'a' + col and rank digit '1' + row, the FEN writer emits board rows 7 down
 * to 0, and the castling letters are read off rows 0 ("K", "Q") and 7 ("k",
 * "q") without looking at the pieces' colours.
 */
module Stockfish {
  import opened Core
  import opened Fen
  import opened GameRules
  import opened Board
  import Uci

  // ---------------------------------------------------------------------------
  // Skill level
  // ---------------------------------------------------------------------------

  /** The `UCI_Elo` value sent for a skill level below 10. */
  function Elo(skill: int): (elo: int)
    requires 0 <= skill < 10
    ensures 1000 <= elo <= 1900
    ensures skill > 0 ==> elo > Elo(skill - 1)
  {
    1000 + skill * 100
  }

  /** The `go movetime` of `getBestMove`, in milliseconds. */
  function ThinkTime(skill: int): (ms: int)
    requires 0 <= skill <= 20
    ensures 100 <= ms <= 1100
    ensures skill > 0 ==> ms > ThinkTime(skill - 1)
  {
    100 + skill * 50
  }

  /**
   * The options `setSkillLevel` sends to a running process: the skill level,
   * then strength limited to the Elo of the level below 10, unlimited from
   * 10 up.
   */
  function SkillCommands(skill: int): seq<string>
    requires 0 <= skill <= 20
  {
    ["setoption name Skill Level value " + NatToString(skill)] +
    (if skill < 10
     then ["setoption name UCI_LimitStrength value true", "setoption name UCI_Elo value " + NatToString(Elo(skill))]
     else ["setoption name UCI_LimitStrength value false"])
  }

  /**
   * Strength is limited exactly for the levels below 10, and then the Elo
   * sent lies in 1000..1900.
   */
  lemma SkillCommandsLimit(skill: int)
    requires 0 <= skill <= 20
    ensures "setoption name UCI_LimitStrength value true" in SkillCommands(skill) <==> skill < 10
    ensures "setoption name UCI_LimitStrength value false" in SkillCommands(skill) <==> skill >= 10
    ensures skill < 10 ==> SkillCommands(skill)[2] == "setoption name UCI_Elo value " + NatToString(Elo(skill))
  {
    SkillLineDiffers(skill);
    if skill < 10 {
      EloLineDiffers(skill);
    }
  }

  /** The skill level line is neither strength-limit line. */
  lemma SkillLineDiffers(skill: int)
    requires 0 <= skill <= 20
    ensures SkillCommands(skill)[0] != "setoption name UCI_LimitStrength value true"
    ensures SkillCommands(skill)[0] != "setoption name UCI_LimitStrength value false"
  {
    var head := "setoption name Skill Level value " + NatToString(skill);
    assert head[15] == 'S';
  }

  /** The Elo line is not the strength-limit line that turns limiting off. */
  lemma EloLineDiffers(skill: int)
    requires 0 <= skill < 10
    ensures "setoption name UCI_Elo value " + NatToString(Elo(skill)) != "setoption name UCI_LimitStrength value false"
  {
    var elo := "setoption name UCI_Elo value " + NatToString(Elo(skill));
    assert elo[19] == 'E';
  }

  // ---------------------------------------------------------------------------
  // Decoding the answer
  // ---------------------------------------------------------------------------

  /**
   * `uciMoveToPoints`: (-1, -1) twice for fewer than four characters, else
   * each square as `QPoint(rank - '1', file - 'a')`.
   */
  function UciMoveToPoints(uciMove: string): (m: MovePair)
    ensures |uciMove| < 4 ==> m == NoMove
  {
    if |uciMove| < 4 then NoMove
    else
      var fromCol := SignedLatin1(uciMove[0]) - 'a' as int;
      var fromRow := SignedLatin1(uciMove[1]) - '1' as int;
      var toCol := SignedLatin1(uciMove[2]) - 'a' as int;
      var toRow := SignedLatin1(uciMove[3]) - '1' as int;
      (Point(fromRow, fromCol), Point(toRow, toCol))
  }

  /** A move written as two square names of uciengine.cpp decodes to those two squares. */
  lemma UciMoveOfSquareNames(r1: int, c1: int, r2: int, c2: int)
    requires IsValidPosition(r1, c1) && IsValidPosition(r2, c2)
    ensures UciMoveToPoints(Uci.PositionToUci(r1, c1) + Uci.PositionToUci(r2, c2)) == (Point(r1, c1), Point(r2, c2))
  {
    Uci.PositionRoundTrip(r1, c1);
    Uci.PositionRoundTrip(r2, c2);
  }

  /** The non-empty parts, in order. */
  function NonEmpty(parts: seq<string>): (r: seq<string>)
    ensures forall i :: 0 <= i < |r| ==> r[i] != ""
  {
    if parts == [] then []
    else (if parts[0] == "" then [] else [parts[0]]) + NonEmpty(parts[1..])
  }

  /** `split(' ', Qt::SkipEmptyParts)`: the words between spaces, empty ones dropped. */
  function Tokens(s: string): seq<string>
  {
    NonEmpty(Split(s, ' '))
  }

  lemma {:induction false} NonEmptyAppend(a: seq<string>, b: seq<string>)
    ensures NonEmpty(a + b) == NonEmpty(a) + NonEmpty(b)
    decreases |a|
  {
    if a != [] {
      assert (a + b)[1..] == a[1..] + b;
      NonEmptyAppend(a[1..], b);
    } else {
      assert a + b == b;
    }
  }

  /** A space separates the words before it from those after it. */
  lemma TokensAppend(a: string, b: string)
    ensures Tokens(a + [' '] + b) == Tokens(a) + Tokens(b)
  {
    SplitAppend(a, b, ' ');
    NonEmptyAppend(Split(a, ' '), Split(b, ' '));
  }

  predicate IsWord(w: string)
  {
    w != "" && ' ' !in w
  }

  lemma TokensWord(w: string)
    requires IsWord(w)
    ensures Tokens(w) == [w]
  {
    SplitPlain(w, ' ');
    assert NonEmpty([w]) == [w] + NonEmpty([w][1..]);
  }

  /** Words joined by single spaces split back into the same words. */
  lemma {:induction false} TokensJoin(words: seq<string>)
    requires |words| >= 1 && forall w :: w in words ==> IsWord(w)
    ensures Tokens(Join(words, ' ')) == words
    decreases |words|
  {
    var n := |words|;
    if n == 1 {
      TokensWord(words[0]);
    } else {
      var init := words[..n - 1];
      assert forall w :: w in init ==> w in words;
      TokensJoin(init);
      TokensAppend(Join(init, ' '), words[n - 1]);
      TokensWord(words[n - 1]);
      assert init + [words[n - 1]] == words;
    }
  }

  /** The word after the first "bestmove" that has a word after it, if there is one. */
  function BestMoveToken(parts: seq<string>): Option<string>
  {
    if |parts| < 2 then None
    else if parts[0] == "bestmove" then Some(parts[1])
    else BestMoveToken(parts[1..])
  }

  /** Words that hold no "bestmove" are skipped: the first "bestmove" decides. */
  lemma {:induction false} BestMoveTokenFirst(before: seq<string>, move: string, after: seq<string>)
    requires "bestmove" !in before
    ensures BestMoveToken(before + ["bestmove", move] + after) == Some(move)
    decreases |before|
  {
    if before == [] {
      assert before + ["bestmove", move] + after == ["bestmove", move] + after;
    } else {
      assert (before + ["bestmove", move] + after)[1..] == before[1..] + ["bestmove", move] + after;
      BestMoveTokenFirst(before[1..], move, after);
    }
  }

  /** Without a "bestmove" followed by another word there is no token. */
  lemma {:induction false} BestMoveTokenNone(parts: seq<string>)
    requires forall i :: 0 <= i < |parts| - 1 ==> parts[i] != "bestmove"
    ensures BestMoveToken(parts) == None
    decreases |parts|
  {
    if |parts| >= 2 {
      assert parts[0] != "bestmove";
      BestMoveTokenNone(parts[1..]);
    }
  }

  /**
   * The move `getBestMove` returns for a non-empty response: none when no
   * token follows a "bestmove" word or that token is "(none)", else the
   * decoded token.
   */
  function ReplyMove(response: string): MovePair
  {
    var t := BestMoveToken(Tokens(response));
    if t.None? || t.value == "(none)" then NoMove else UciMoveToPoints(t.value)
  }

  /** A response of words whose first "bestmove" is followed by `move` answers `move`. */
  lemma ReplyOfWords(before: seq<string>, move: string, after: seq<string>)
    requires "bestmove" !in before && IsWord(move)
    requires forall w :: w in before ==> IsWord(w)
    requires forall w :: w in after ==> IsWord(w)
    ensures ReplyMove(Join(before + ["bestmove", move] + after, ' ')) ==
      if move == "(none)" then NoMove else UciMoveToPoints(move)
  {
    var words := before + ["bestmove", move] + after;
    assert forall w :: w in words ==> w in before || w == "bestmove" || w == move || w in after;
    TokensJoin(words);
    BestMoveTokenFirst(before, move, after);
    ReplyOfToken(Join(words, ' '), move);
  }

  /** The answer depends on the response only through the token after "bestmove". */
  lemma ReplyOfToken(response: string, move: string)
    requires BestMoveToken(Tokens(response)) == Some(move)
    ensures ReplyMove(response) == if move == "(none)" then NoMove else UciMoveToPoints(move)
  {
  }

  /** "bestmove" followed by the names of two board squares answers the move between them. */
  lemma ReplyOfSquareNames(r1: int, c1: int, r2: int, c2: int)
    requires IsValidPosition(r1, c1) && IsValidPosition(r2, c2)
    ensures ReplyMove("bestmove " + Uci.PositionToUci(r1, c1) + Uci.PositionToUci(r2, c2)) == (Point(r1, c1), Point(r2, c2))
  {
    var move := Uci.PositionToUci(r1, c1) + Uci.PositionToUci(r2, c2);
    Uci.PositionRoundTrip(r1, c1);
    Uci.PositionRoundTrip(r2, c2);
    assert IsWord(move);
    assert move != "(none)" by {
      assert |move| == 4 != |"(none)"|;
    }
    assert "bestmove " + Uci.PositionToUci(r1, c1) + Uci.PositionToUci(r2, c2) == "bestmove " + move;
    ReplyOfBestMoveWord(move);
    UciMoveOfSquareNames(r1, c1, r2, c2);
  }

  /** "bestmove " followed by one word answers that word, decoded, unless it is "(none)". */
  lemma ReplyOfBestMoveWord(move: string)
    requires IsWord(move)
    ensures ReplyMove("bestmove " + move) == if move == "(none)" then NoMove else UciMoveToPoints(move)
  {
    assert "bestmove " + move == "bestmove" + [' '] + move;
    TokensAppend("bestmove", move);
    TokensWord("bestmove");
    TokensWord(move);
    assert BestMoveToken(["bestmove", move]) == Some(move);
    ReplyOfToken("bestmove " + move, move);
  }

  /**
   * Only spaces separate words, so a "bestmove" that follows a newline is
   * glued to the end of the line before it and is not recognised: such a
   * response answers no move.
   */
  lemma ReplyAfterNewline(line: string, move: string)
    requires IsWord(line) && IsWord(move)
    ensures ReplyMove(line + "\nbestmove " + move) == NoMove
  {
    var glued := line + "\nbestmove";
    assert IsWord(glued) by {
      assert forall i :: 0 <= i < |glued| ==> glued[i] == (if i < |line| then line[i] else "\nbestmove"[i - |line|]);
    }
    assert |glued| > |"bestmove"|;
    assert line + "\nbestmove " + move == glued + [' '] + move;
    TokensAppend(glued, move);
    TokensWord(glued);
    TokensWord(move);
    BestMoveTokenNone([glued, move]);
  }

  // ---------------------------------------------------------------------------
  // The FEN string
  // ---------------------------------------------------------------------------

  /** `getPieceAt(row, col)` is a piece of kind `k` that has not moved. */
  predicate UnmovedAt(g: Grid, row: int, col: int, k: Kind)
    requires IsValidPosition(row, col)
  {
    g[row][col].Some? && g[row][col].value.kind == k && !g[row][col].value.hasMoved
  }

  predicate KingSideRight(g: Grid, row: int)
    requires 0 <= row < 8
  {
    UnmovedAt(g, row, 4, King) && UnmovedAt(g, row, 7, Rook)
  }

  predicate QueenSideRight(g: Grid, row: int)
    requires 0 <= row < 8
  {
    UnmovedAt(g, row, 4, King) && UnmovedAt(g, row, 0, Rook)
  }

  /** The castling field: "K"/"Q" from row 0, "k"/"q" from row 7, or "-". */
  function StockfishCastling(g: Grid): string
  {
    CastlingField(KingSideRight(g, 0), QueenSideRight(g, 0), KingSideRight(g, 7), QueenSideRight(g, 7))
  }

  /**
   * The castling field is "-" exactly when no row has an unmoved king on
   * column 4 beside an unmoved rook on column 7 or 0; otherwise its letters
   * are in K, Q, k, q order and each one stands for exactly its condition.
   */
  lemma StockfishCastlingRights(g: Grid)
    ensures var s := StockfishCastling(g);
      s == "-" <==> !(KingSideRight(g, 0) || QueenSideRight(g, 0) || KingSideRight(g, 7) || QueenSideRight(g, 7))
    ensures var s := StockfishCastling(g);
      s != "-" ==>
        InCastlingOrder(s) &&
        ('K' in s <==> KingSideRight(g, 0)) && ('Q' in s <==> QueenSideRight(g, 0)) &&
        ('k' in s <==> KingSideRight(g, 7)) && ('q' in s <==> QueenSideRight(g, 7))
  {
    var wk, wq, bk, bq := KingSideRight(g, 0), QueenSideRight(g, 0), KingSideRight(g, 7), QueenSideRight(g, 7);
    CastlingFieldNone(wk, wq, bk, bq);
    if wk || wq || bk || bq {
      CastlingFieldOrder(wk, wq, bk, bq);
      CastlingFieldLetters(wk, wq, bk, bq);
    }
  }

  /** The en-passant field: file 'a' + y and rank '1' + x of the target, or "-" when a coordinate is negative. */
  function StockfishEnPassant(ep: Point): string
  {
    if ep.x >= 0 && ep.y >= 0 then [Latin1('a' as int + ep.y), Latin1('1' as int + ep.x)] else "-"
  }

  /** `boardToFEN`: rows 7 to 0, the turn, the castling field, the en-passant field, "0 1". */
  function StockfishFen(s: GameState, turn: Color): string
  {
    FenString(Placement(s.grid, BottomUp), TurnLetter(turn), StockfishCastling(s.grid), StockfishEnPassant(s.ep))
  }

  /**
   * For a well-formed en-passant target the string splits on spaces into
   * its six fields, and the en-passant field is "-" or a file letter and a
   * rank digit.
   */
  lemma StockfishFenFields(s: GameState, turn: Color)
    requires EpWellFormed(s.ep)
    ensures Split(StockfishFen(s, turn), ' ') ==
      [Placement(s.grid, BottomUp), TurnLetter(turn), StockfishCastling(s.grid), StockfishEnPassant(s.ep), "0", "1"]
    ensures var ep := StockfishEnPassant(s.ep);
      ep == "-" || (|ep| == 2 && 'a' <= ep[0] <= 'h' && '1' <= ep[1] <= '8')
  {
    PlacementNoSpace(s.grid, BottomUp);
    CastlingNoSpace(s.grid);
    EnPassantShape(s.ep);
    FenFields(Placement(s.grid, BottomUp), TurnLetter(turn), StockfishCastling(s.grid), StockfishEnPassant(s.ep));
  }

  lemma CastlingNoSpace(g: Grid)
    ensures ' ' !in StockfishCastling(g)
  {
    CastlingFieldNoSpace(KingSideRight(g, 0), QueenSideRight(g, 0), KingSideRight(g, 7), QueenSideRight(g, 7));
  }

  lemma EnPassantShape(ep: Point)
    requires EpWellFormed(ep)
    ensures var f := StockfishEnPassant(ep);
      f == "-" || (|f| == 2 && 'a' <= f[0] <= 'h' && '1' <= f[1] <= '8')
  {
  }

  /** On the starting position all four castling letters are written. */
  lemma InitialCastling()
    ensures StockfishCastling(InitialGrid()) == "KQkq"
  {
    var g := InitialGrid();
    assert g[0][4] == InitialCell(0, 4) && g[0][7] == InitialCell(0, 7) && g[0][0] == InitialCell(0, 0);
    assert g[7][4] == InitialCell(7, 4) && g[7][7] == InitialCell(7, 7) && g[7][0] == InitialCell(7, 0);
  }

  /** The nested `if`s of the castling part of `boardToFEN`. */
  method CastlingLetters(b: ChessBoard) returns (castling: string)
    requires b.Valid()
    ensures (if castling == "" then "-" else castling) == StockfishCastling(Snapshot(b.board))
  {
    var white := RowLetters(b, 0, 'K', 'Q');
    var black := RowLetters(b, 7, 'k', 'q');
    castling := white + black;
  }

  /** One `if` block of the castling part: the king on column 4 of `row`, then its two rooks. */
  method RowLetters(b: ChessBoard, row: int, kingSide: char, queenSide: char) returns (letters: string)
    requires b.Valid() && (row == 0 || row == 7)
    ensures letters ==
      (if KingSideRight(Snapshot(b.board), row) then [kingSide] else []) +
      (if QueenSideRight(Snapshot(b.board), row) then [queenSide] else [])
  {
    letters := "";
    var king := b.GetPieceAt(row, 4);
    if king.Some? && king.value.kind == King && !king.value.hasMoved {
      var kingRook := b.GetPieceAt(row, 7);
      if kingRook.Some? && kingRook.value.kind == Rook && !kingRook.value.hasMoved {
        letters := letters + [kingSide];
      }
      var queenRook := b.GetPieceAt(row, 0);
      if queenRook.Some? && queenRook.value.kind == Rook && !queenRook.value.hasMoved {
        letters := letters + [queenSide];
      }
    }
  }

  /** `boardToFEN`, field by field. */
  method BoardToFen(b: ChessBoard, currentTurn: Color) returns (fen: string)
    requires b.Valid()
    ensures fen == StockfishFen(b.State(), currentTurn)
  {
    var placement := WritePlacement(b.board, BottomUp);
    fen := placement;
    fen := fen + (if currentTurn == White then " w " else " b ");
    assert fen == placement + " " + TurnLetter(currentTurn) + " ";
    var castling := CastlingLetters(b);
    ghost var field := if castling == "" then "-" else castling;
    fen := fen + (if castling == "" then "- " else castling + " ");
    assert fen == placement + " " + TurnLetter(currentTurn) + " " + field + " ";
    var enPassantTarget := b.enPassantTarget;
    var ep: string;
    if enPassantTarget.x >= 0 && enPassantTarget.y >= 0 {
      var file := Latin1('a' as int + enPassantTarget.y);
      var rank := Latin1('1' as int + enPassantTarget.x);
      ep := [file, rank];
    } else {
      ep := "-";
    }
    assert ep == StockfishEnPassant(b.enPassantTarget);
    fen := fen + ep;
    fen := fen + " 0 1";
    assert fen == FenString(placement, TurnLetter(currentTurn), field, ep);
  }

  // ---------------------------------------------------------------------------
  // The engine object
  // ---------------------------------------------------------------------------

  /** What a successful `initialize` sends: "uci", the skill options, "isready". */
  function InitCommands(skill: int): seq<string>
    requires 0 <= skill <= 20
  {
    ["uci"] + SkillCommands(skill) + ["isready"]
  }

  /** What `getBestMove` sends for a position: the FEN string and the timed search. */
  function QueryCommands(s: GameState, turn: Color, skill: int): seq<string>
    requires 0 <= skill <= 20
  {
    ["position fen " + StockfishFen(s, turn), "go movetime " + NatToString(ThinkTime(skill))]
  }

  /**
   * `StockfishEngine`. `running` stands for "`m_process` exists and is in
   * the Running state"; the lines written to the process, the
   * `bestMoveFound` signals and the `error` signals are kept as logs.
   */
  class StockfishEngine {
    var skillLevel: int
    var isReady: bool
    var isInitialized: bool
    var bestMove: string
    var running: bool
    var sent: seq<string>
    var found: seq<string>
    var errors: seq<string>

    /**
     * The stored skill level is one `qBound(0, level, 20)` can give, and the
     * engine is ready exactly when it is initialised (both are set together
     * at the end of `initialize` and cleared together by `shutdown`).
     */
    ghost predicate Valid()
      reads this
    {
      0 <= skillLevel <= 20 && isReady == isInitialized
    }

    /** `StockfishEngine()`: no process, skill level 10, neither ready nor initialised. */
    constructor()
      ensures Valid()
      ensures skillLevel == 10 && !isReady && !isInitialized && !running
      ensures bestMove == "" && sent == [] && found == [] && errors == []
    {
      skillLevel, isReady, isInitialized, running := 10, false, false, false;
      bestMove, sent, found, errors := "", [], [], [];
    }

    /** `sendCommand`: the command reaches the process only while it runs. */
    method SendCommand(command: string)
      modifies this
      ensures sent == old(sent) + (if old(running) then [command] else [])
      ensures skillLevel == old(skillLevel) && isReady == old(isReady) && isInitialized == old(isInitialized)
      ensures bestMove == old(bestMove) && running == old(running)
      ensures found == old(found) && errors == old(errors)
    {
      if running {
        sent := sent + [command];
      }
    }

    /**
     * `setSkillLevel`: the level is clamped to 0..20 and stored whether or
     * not the process runs; a running process receives the skill options.
     */
    method SetSkillLevel(level: int)
      requires Valid()
      modifies this
      ensures Valid() && skillLevel == Clamp(0, level, 20)
      ensures sent == old(sent) + (if old(running) then SkillCommands(skillLevel) else [])
      ensures isReady == old(isReady) && isInitialized == old(isInitialized)
      ensures bestMove == old(bestMove) && running == old(running)
      ensures found == old(found) && errors == old(errors)
    {
      skillLevel := Clamp(0, level, 20);
      if running {
        SendCommand("setoption name Skill Level value " + NatToString(skillLevel));
        if skillLevel < 10 {
          SendCommand("setoption name UCI_LimitStrength value true");
          var elo := 1000 + (skillLevel * 100);
          SendCommand("setoption name UCI_Elo value " + NatToString(elo));
        } else {
          SendCommand("setoption name UCI_LimitStrength value false");
        }
      }
    }

    /**
     * The successful path of `initialize` as `getBestMove` calls it on an
     * engine that is not ready: the process runs, receives "uci", the skill
     * options and "isready", and the engine becomes ready and initialised.
     */
    method StartEngine()
      requires Valid() && !isReady
      modifies this
      ensures Valid() && isReady && isInitialized && running
      ensures skillLevel == old(skillLevel) && bestMove == old(bestMove)
      ensures sent == old(sent) + InitCommands(skillLevel)
      ensures found == old(found) && errors == old(errors)
    {
      running := true;
      SendCommand("uci");
      SetSkillLevel(skillLevel);
      SendCommand("isready");
      isReady := true;
      isInitialized := true;
    }

    /** The middle of `getBestMove`: the position and the timed search are sent. */
    method SendQuery(b: ChessBoard, color: Color)
      requires Valid() && b.Valid()
      modifies this
      ensures skillLevel == old(skillLevel) && isReady == old(isReady) && isInitialized == old(isInitialized)
      ensures bestMove == old(bestMove) && running == old(running)
      ensures found == old(found) && errors == old(errors)
      ensures sent == old(sent) + (if running then QueryCommands(b.State(), color, skillLevel) else [])
    {
      ghost var before := sent;
      var fen := BoardToFen(b, color);
      SendCommand("position fen " + fen);
      var thinkTime := 100 + (skillLevel * 50);
      assert thinkTime == ThinkTime(skillLevel);
      SendCommand("go movetime " + NatToString(thinkTime));
      assert sent == before + (if running then ["position fen " + fen, "go movetime " + NatToString(thinkTime)] else []);
    }

    /**
     * The end of `getBestMove`, given the engine's `response`: no response
     * is an error; otherwise the token after the first "bestmove" word is
     * stored, and unless it is missing or "(none)" it is signalled and
     * decoded.
     */
    method ReadReply(response: string) returns (move: MovePair)
      modifies this
      ensures move == ReplyMove(response)
      ensures bestMove == (var t := BestMoveToken(Tokens(response)); if t.Some? then t.value else "")
      ensures errors == old(errors) + (if response == "" then ["No response from engine"] else [])
      ensures found == old(found) + (if bestMove != "" && bestMove != "(none)" then [bestMove] else [])
      ensures skillLevel == old(skillLevel) && isReady == old(isReady) && isInitialized == old(isInitialized)
      ensures running == old(running) && sent == old(sent)
    {
      bestMove := "";
      if response == "" {
        errors := errors + ["No response from engine"];
        return NoMove;
      }
      var parts := Tokens(response);
      var i := 0;
      while i < |parts|
        invariant 0 <= i <= |parts| && bestMove == ""
        invariant BestMoveToken(parts[i..]) == BestMoveToken(parts)
        invariant found == old(found) && errors == old(errors)
      {
        if parts[i] == "bestmove" && i + 1 < |parts| {
          bestMove := parts[i + 1];
          break;
        }
        assert parts[i..][1..] == parts[i + 1..];
        i := i + 1;
      }
      if bestMove == "" || bestMove == "(none)" {
        return NoMove;
      }
      found := found + [bestMove];
      return UciMoveToPoints(bestMove);
    }

    /**
     * `getBestMove`, with the outcome of `initialize` (`initOk`) and the
     * collected engine output (`response`) as parameters. A failed
     * initialisation answers no move; otherwise the position and the search
     * are sent and the answer is `ReplyMove(response)`.
     */
    method GetBestMove(b: ChessBoard, color: Color, initOk: bool, response: string) returns (move: MovePair)
      requires Valid() && b.Valid()
      modifies this
      ensures Valid() && skillLevel == old(skillLevel)
      ensures !old(isReady) && !initOk ==> move == NoMove && unchanged(this)
      ensures old(isReady) || initOk ==> isReady && isInitialized && running == (old(running) || !old(isReady))
      ensures old(isReady) || initOk ==> move == ReplyMove(response)
      ensures old(isReady) || initOk ==>
        sent == old(sent) + (if old(isReady) then [] else InitCommands(skillLevel)) +
          (if running then QueryCommands(b.State(), color, skillLevel) else [])
      ensures old(isReady) || initOk ==>
        errors == old(errors) + (if response == "" then ["No response from engine"] else [])
    {
      if !isReady {
        if !initOk {
          return NoMove;
        }
        StartEngine();
      }
      SendQuery(b, color);
      move := ReadReply(response);
    }
  }
}
