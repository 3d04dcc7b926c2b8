/**
 * The generic UCI engine wrapper of uciengine.cpp: square names in the
 * engine's long algebraic notation, the FEN string it sends, and the state
 * kept between engine output lines (readiness, skill level).
 *
 * Convention of this file: a square is `QPoint(row, col)`, its file letter
 * is 'a' + col and its rank digit is '1' + row; the FEN writer emits board
 * rows 7 down to 0.
 */
module Uci {
  import opened Core
  import opened Fen
  import opened Board

  // ---------------------------------------------------------------------------
  // Square names
  // ---------------------------------------------------------------------------

  /** `positionToUCI(row, col)`: the file character, then the rank character. */
  function PositionToUci(row: int, col: int): (u: string)
    ensures |u| == 2
  {
    [Latin1('a' as int + col), Latin1('1' as int + row)]
  }

  /** `uciToPosition(uci)`: (-1, -1) for fewer than two characters, else `QPoint(rank - '1', file - 'a')`. */
  function UciToPosition(uci: string): (p: Point)
    ensures |uci| < 2 ==> p == NoSquare
  {
    if |uci| < 2 then NoSquare
    else Point(SignedLatin1(uci[1]) - '1' as int, SignedLatin1(uci[0]) - 'a' as int)
  }

  /** A file letter a..h followed by a rank digit 1..8. */
  predicate IsSquareName(u: string)
  {
    |u| == 2 && 'a' <= u[0] <= 'h' && '1' <= u[1] <= '8'
  }

  /** Every board square is named by a file letter and a rank digit, and its name decodes back to it. */
  lemma PositionRoundTrip(row: int, col: int)
    requires IsValidPosition(row, col)
    ensures IsSquareName(PositionToUci(row, col))
    ensures UciToPosition(PositionToUci(row, col)) == Point(row, col)
  {
    Latin1RoundTrip('a' as int + col);
    Latin1RoundTrip('1' as int + row);
  }

  /** Conversely, every square name decodes to a board square whose name it is. */
  lemma SquareNameRoundTrip(u: string)
    requires IsSquareName(u)
    ensures IsValidPosition(UciToPosition(u).x, UciToPosition(u).y)
    ensures PositionToUci(UciToPosition(u).x, UciToPosition(u).y) == u
  {
    var p := UciToPosition(u);
    assert SignedLatin1(u[0]) == u[0] as int && SignedLatin1(u[1]) == u[1] as int;
    assert PositionToUci(p.x, p.y) == [u[0], u[1]];
  }

  // ---------------------------------------------------------------------------
  // Engine output lines
  // ---------------------------------------------------------------------------

  predicate StartsWith(s: string, prefix: string)
  {
    |prefix| <= |s| && s[..|prefix|] == prefix
  }

  /**
   * The `bestMoveFound(from, to)` signal `processLine` emits for a line, if
   * any: for a line starting with "bestmove", the first two and the next two
   * characters of the second space-separated part, when that part has at
   * least four characters.
   */
  function BestMoveReport(line: string): (r: Option<(string, string)>)
    ensures r.Some? ==> StartsWith(line, "bestmove") && |r.value.0| == 2 && |r.value.1| == 2
  {
    if line == "uciok" || line == "readyok" || !StartsWith(line, "bestmove") then None
    else
      var parts := Split(line, ' ');
      if |parts| >= 2 && |parts[1]| >= 4 then Some((parts[1][0..2], parts[1][2..4])) else None
  }

  /** A space-free word followed by nothing or by a space is the first part of the split. */
  lemma SplitHead(word: string, tail: string, sep: char)
    requires sep !in word && (tail == [] || tail[0] == sep)
    ensures Split(word + tail, sep)[0] == word
  {
    SplitPlain(word, sep);
    if tail != [] {
      assert word + tail == word + [sep] + tail[1..];
      SplitAppend(word, tail[1..], sep);
    } else {
      assert word + tail == word;
    }
  }

  /**
   * "bestmove <move>" (optionally followed by " ponder ..." or any other
   * space-led text) reports the first two and the next two characters of
   * the move, and a move shorter than four characters reports nothing.
   */
  lemma BestMoveLine(move: string, tail: string)
    requires ' ' !in move && (tail == [] || tail[0] == ' ')
    ensures BestMoveReport("bestmove " + move + tail) ==
      if |move| >= 4 then Some((move[0..2], move[2..4])) else None
  {
    var line := "bestmove " + move + tail;
    assert line == "bestmove" + [' '] + (move + tail);
    assert line[..8] == "bestmove";
    SplitPlain("bestmove", ' ');
    SplitAppend("bestmove", move + tail, ' ');
    SplitHead(move, tail, ' ');
  }

  /** An engine answer naming two board squares is reported as the names of those squares. */
  lemma BestMoveDecodes(r1: int, c1: int, r2: int, c2: int, tail: string)
    requires IsValidPosition(r1, c1) && IsValidPosition(r2, c2)
    requires tail == [] || tail[0] == ' '
    ensures var r := BestMoveReport("bestmove " + PositionToUci(r1, c1) + PositionToUci(r2, c2) + tail);
      r.Some? && UciToPosition(r.value.0) == Point(r1, c1) && UciToPosition(r.value.1) == Point(r2, c2)
  {
    var move := PositionToUci(r1, c1) + PositionToUci(r2, c2);
    PositionRoundTrip(r1, c1);
    PositionRoundTrip(r2, c2);
    assert ' ' !in move;
    assert "bestmove " + PositionToUci(r1, c1) + PositionToUci(r2, c2) + tail == "bestmove " + move + tail;
    BestMoveLine(move, tail);
    assert move[0..2] == PositionToUci(r1, c1) && move[2..4] == PositionToUci(r2, c2);
  }

  // ---------------------------------------------------------------------------
  // The FEN string
  // ---------------------------------------------------------------------------

  /** `boardToFEN`: rows 7 to 0, the turn, castling always "KQkq", en passant always "-". */
  function UciFen(g: Grid, turn: Color): string
  {
    FenString(Placement(g, BottomUp), TurnLetter(turn), "KQkq", "-")
  }

  /**
   * The string splits on spaces into the placement of rows 7 down to 0,
   * "w" or "b", "KQkq", "-", "0" and "1", whatever the board.
   */
  lemma UciFenFields(g: Grid, turn: Color)
    ensures Split(UciFen(g, turn), ' ') == [Placement(g, BottomUp), TurnLetter(turn), "KQkq", "-", "0", "1"]
  {
    PlacementNoSpace(g, BottomUp);
    FenFields(Placement(g, BottomUp), TurnLetter(turn), "KQkq", "-");
  }

  // ---------------------------------------------------------------------------
  // The engine object
  // ---------------------------------------------------------------------------

  /**
   * `UCIEngine`. `running` stands for "`m_process` exists and is in the
   * Running state"; the lines written to the process, the `bestMoveFound`
   * signals and the `engineError` signals are kept as logs.
   */
  class UciEngine {
    var isReady: bool
    var skillLevel: int
    var running: bool
    var sent: seq<string>
    var reported: seq<(string, string)>
    var errors: seq<string>

    /** The stored skill level is always one `qBound(0, level, 20)` can give. */
    ghost predicate Valid()
      reads this
    {
      0 <= skillLevel <= 20
    }

    /** `UCIEngine()`: no process, not ready, skill level 10. */
    constructor()
      ensures Valid()
      ensures !isReady && skillLevel == 10 && !running
      ensures sent == [] && reported == [] && errors == []
    {
      isReady, skillLevel, running := false, 10, false;
      sent, reported, errors := [], [], [];
    }

    /** `sendCommand`: the command reaches the process only while it runs. */
    method SendCommand(command: string)
      modifies this
      ensures sent == old(sent) + (if old(running) then [command] else [])
      ensures isReady == old(isReady) && skillLevel == old(skillLevel) && running == old(running)
      ensures reported == old(reported) && errors == old(errors)
    {
      if running {
        sent := sent + [command];
      }
    }

    /**
     * `initialize`, with the outcome of starting the process as the
     * parameter `started`: on failure an error is signalled; on success the
     * process runs and receives "uci", the skill level option and "isready".
     */
    method Initialize(started: bool) returns (ok: bool)
      requires Valid()
      modifies this
      ensures Valid() && ok == started && running == started
      ensures isReady == old(isReady) && skillLevel == old(skillLevel) && reported == old(reported)
      ensures !started ==> sent == old(sent) && errors == old(errors) + ["Failed to start engine"]
      ensures started ==> errors == old(errors)
      ensures started ==>
        sent == old(sent) + ["uci", "setoption name Skill Level value " + NatToString(skillLevel), "isready"]
    {
      running := started;
      if !started {
        errors := errors + ["Failed to start engine"];
        return false;
      }
      SendCommand("uci");
      SendCommand("setoption name Skill Level value " + NatToString(skillLevel));
      SendCommand("isready");
      return true;
    }

    /**
     * `setSkillLevel`: the level is clamped to 0..20 and stored whether or
     * not the process runs; only a running process is told about it.
     */
    method SetSkillLevel(level: int)
      modifies this
      ensures Valid() && skillLevel == Clamp(0, level, 20)
      ensures old(running) ==>
        sent == old(sent) + ["setoption name Skill Level value " + NatToString(skillLevel), "isready"]
      ensures !old(running) ==> sent == old(sent)
      ensures isReady == old(isReady) && running == old(running)
      ensures reported == old(reported) && errors == old(errors)
    {
      skillLevel := Clamp(0, level, 20);
      SendCommand("setoption name Skill Level value " + NatToString(skillLevel));
      SendCommand("isready");
    }

    /**
     * `processLine`: "readyok" makes the engine ready, and nothing makes it
     * unready; a "bestmove" line is reported as `BestMoveReport` says.
     */
    method ProcessLine(line: string)
      modifies this
      ensures isReady == (old(isReady) || line == "readyok")
      ensures reported == old(reported) + (if BestMoveReport(line).Some? then [BestMoveReport(line).value] else [])
      ensures skillLevel == old(skillLevel) && running == old(running)
      ensures sent == old(sent) && errors == old(errors)
    {
      if line == "uciok" {
      } else if line == "readyok" {
        isReady := true;
      } else if StartsWith(line, "bestmove") {
        var parts := Split(line, ' ');
        if |parts| >= 2 {
          var move := parts[1];
          if |move| >= 4 {
            var from := move[0..2];
            var to := move[2..4];
            reported := reported + [(from, to)];
          }
        }
      }
    }

    /**
     * `getBestMove`: without a running, ready engine an error is signalled
     * and nothing is sent; otherwise the position and a one-second search
     * are sent.
     */
    method GetBestMove(b: ChessBoard, color: Color)
      requires b.Valid()
      modifies this
      ensures !(old(running) && old(isReady)) ==>
        sent == old(sent) && errors == old(errors) + ["Engine not ready"]
      ensures old(running) && old(isReady) ==> errors == old(errors)
      ensures old(running) && old(isReady) ==>
        sent == old(sent) + ["position fen " + UciFen(Snapshot(b.board), color), "go movetime 1000"]
      ensures isReady == old(isReady) && skillLevel == old(skillLevel) && running == old(running)
      ensures reported == old(reported)
    {
      if !running || !isReady {
        errors := errors + ["Engine not ready"];
        return;
      }
      var fen := BoardToFen(b, color);
      SendCommand("position fen " + fen);
      SendCommand("go movetime 1000");
    }
  }

  /** `boardToFEN`, field by field. */
  method BoardToFen(b: ChessBoard, turn: Color) returns (fen: string)
    requires b.Valid()
    ensures fen == UciFen(Snapshot(b.board), turn)
  {
    var placement := WritePlacement(b.board, BottomUp);
    fen := placement;
    fen := fen + (if turn == White then " w " else " b ");
    assert fen == placement + " " + TurnLetter(turn) + " ";
    var castling := "KQkq";
    fen := fen + (if castling == "" then "-" else castling);
    fen := fen + " ";
    fen := fen + "- ";
    fen := fen + "0 1";
    assert fen == placement + " " + TurnLetter(turn) + " " + "KQkq" + " " + "-" + " 0 1";
  }
}
