/**
 * The piece-placement field of Forsyth-Edwards Notation as the three
 * serialisers (chessai.cpp, stockfishengine.cpp, uciengine.cpp) write it:
 * one rank field per board row, each a run of piece letters and counts of
 * empty squares, the fields joined by '/'. The three copies of the loop in
 * the source differ only in the order of the rows, so the row order is a
 * parameter here.
 *
 * Each rank field expands back to the row it came from, and the joined
 * placement splits back into its fields.
 */
module Fen {
  import opened Core

  // ---------------------------------------------------------------------------
  // Letters
  // ---------------------------------------------------------------------------

  /** The lowercase letter of the `switch` on the piece type. */
  function KindLetter(k: Kind): char
  {
    match k
    case Pawn => 'p'
    case Knight => 'n'
    case Bishop => 'b'
    case Rook => 'r'
    case Queen => 'q'
    case King => 'k'
  }

  /** C `toupper` on an ASCII character. */
  function ToUpper(c: char): char
  {
    if 'a' <= c <= 'z' then (c as int - 32) as char else c
  }

  predicate IsDigit(c: char)
  {
    '0' <= c <= '9'
  }

  predicate IsUpper(c: char)
  {
    'A' <= c <= 'Z'
  }

  /** The letter of a piece: lowercase for Black, uppercase for White. */
  function PieceLetter(p: Piece): (c: char)
    ensures c in "pnbrqkPNBRQK"
    ensures IsUpper(c) <==> p.color == White
  {
    var l := KindLetter(p.kind);
    if p.color == White then ToUpper(l) else l
  }

  /** Distinct kinds or colours get distinct letters. */
  lemma PieceLetterDeterminesPiece(p: Piece, q: Piece)
    ensures PieceLetter(p) == PieceLetter(q) <==> p.kind == q.kind && p.color == q.color
  {
  }

  // ---------------------------------------------------------------------------
  // One rank field
  // ---------------------------------------------------------------------------

  /** `if (emptyCount > 0) fen += QString::number(emptyCount)`. */
  function Flush(n: nat): string
  {
    if n > 0 then NatToString(n) else ""
  }

  /**
   * The column loop resumed at `col` with `empty` empty squares counted and
   * not yet written: what it appends to the string.
   */
  function FieldFrom(row: seq<Option<Piece>>, col: nat, empty: nat): string
    requires |row| == 8 && col <= 8
    decreases 8 - col
  {
    if col == 8 then Flush(empty)
    else if row[col].Some? then Flush(empty) + [PieceLetter(row[col].value)] + FieldFrom(row, col + 1, 0)
    else FieldFrom(row, col + 1, empty + 1)
  }

  /** The rank field of one board row. */
  function RankField(row: seq<Option<Piece>>): string
    requires |row| == 8
  {
    FieldFrom(row, 0, 0)
  }

  /** A square as one character: its piece letter, or '.' when empty. */
  function SquareChar(o: Option<Piece>): char
  {
    if o.None? then '.' else PieceLetter(o.value)
  }

  /** The row drawn one character per square. */
  function Picture(row: seq<Option<Piece>>): (s: string)
    requires |row| == 8
    ensures |s| == 8 && forall c :: 0 <= c < 8 ==> s[c] == SquareChar(row[c])
  {
    seq(8, (c: int) requires 0 <= c < 8 => SquareChar(row[c]))
  }

  function Dots(n: nat): (s: string)
    ensures |s| == n && forall i :: 0 <= i < n ==> s[i] == '.'
  {
    seq(n, _ => '.')
  }

  /** The reading of a rank field: each digit d stands for d empty squares. */
  function Expand(s: string): string
  {
    if s == [] then []
    else (if IsDigit(s[0]) then Dots(s[0] as int - '0' as int) else [s[0]]) + Expand(s[1..])
  }

  lemma {:induction false} ExpandAppend(a: string, b: string)
    ensures Expand(a + b) == Expand(a) + Expand(b)
    decreases |a|
  {
    if a == [] {
      assert a + b == b;
    } else {
      assert (a + b)[0] == a[0];
      assert (a + b)[1..] == a[1..] + b;
      ExpandAppend(a[1..], b);
    }
  }

  lemma FlushExpands(n: nat)
    requires n <= 8
    ensures Expand(Flush(n)) == Dots(n)
  {
    if n > 0 {
      assert Flush(n) == [('0' as int + n) as char];
      assert Expand(Flush(n)) == Dots(n) + Expand([]);
    }
  }

  /** The squares from column `col` on, one character each. */
  function PictureFrom(row: seq<Option<Piece>>, col: nat): string
    requires |row| == 8 && col <= 8
    decreases 8 - col
  {
    if col == 8 then [] else [SquareChar(row[col])] + PictureFrom(row, col + 1)
  }

  lemma {:induction false} PictureFromSlice(row: seq<Option<Piece>>, col: nat)
    requires |row| == 8 && col <= 8
    ensures PictureFrom(row, col) == Picture(row)[col..]
    decreases 8 - col
  {
    if col < 8 {
      PictureFromSlice(row, col + 1);
      SliceCons(Picture(row), col);
    } else {
      assert Picture(row)[8..] == [];
    }
  }

  lemma SliceCons(s: string, i: nat)
    requires i < |s|
    ensures s[i..] == [s[i]] + s[i + 1..]
  {
  }

  lemma {:induction false} FieldFromExpands(row: seq<Option<Piece>>, col: nat, empty: nat)
    requires |row| == 8 && empty <= col <= 8
    ensures Expand(FieldFrom(row, col, empty)) == Dots(empty) + PictureFrom(row, col)
    decreases 8 - col
  {
    if col == 8 {
      EndExpands(row, empty);
    } else if row[col].Some? {
      FieldFromExpands(row, col + 1, 0);
      PieceExpands(row, col, empty);
    } else {
      FieldFromExpands(row, col + 1, empty + 1);
      EmptyExpands(row, col, empty);
    }
  }

  /** The end of the row: the pending count is flushed. */
  lemma EndExpands(row: seq<Option<Piece>>, empty: nat)
    requires |row| == 8 && empty <= 8
    ensures Expand(FieldFrom(row, 8, empty)) == Dots(empty) + PictureFrom(row, 8)
  {
    FlushExpands(empty);
    assert Dots(empty) + [] == Dots(empty);
  }

  /** The step of `FieldFromExpands` at an empty square. */
  lemma EmptyExpands(row: seq<Option<Piece>>, col: nat, empty: nat)
    requires |row| == 8 && empty <= col < 8 && row[col].None?
    requires Expand(FieldFrom(row, col + 1, empty + 1)) == Dots(empty + 1) + PictureFrom(row, col + 1)
    ensures Expand(FieldFrom(row, col, empty)) == Dots(empty) + PictureFrom(row, col)
  {
    assert FieldFrom(row, col, empty) == FieldFrom(row, col + 1, empty + 1);
    assert PictureFrom(row, col) == ['.'] + PictureFrom(row, col + 1);
    assert Dots(empty + 1) == Dots(empty) + ['.'];
    Regroup(Dots(empty), ['.'], PictureFrom(row, col + 1), []);
  }

  /** The step of `FieldFromExpands` at an occupied square. */
  lemma PieceExpands(row: seq<Option<Piece>>, col: nat, empty: nat)
    requires |row| == 8 && empty <= col < 8 && row[col].Some?
    requires Expand(FieldFrom(row, col + 1, 0)) == Dots(0) + PictureFrom(row, col + 1)
    ensures Expand(FieldFrom(row, col, empty)) == Dots(empty) + PictureFrom(row, col)
  {
    var l := PieceLetter(row[col].value);
    var rest := FieldFrom(row, col + 1, 0);
    assert FieldFrom(row, col, empty) == Flush(empty) + [l] + rest;
    assert Dots(0) + PictureFrom(row, col + 1) == PictureFrom(row, col + 1);
    FlushExpands(empty);
    ExpandLetter(Flush(empty), l, rest);
  }

  /** A letter between two pieces of text stands for itself. */
  lemma ExpandLetter(a: string, l: char, b: string)
    requires !IsDigit(l)
    ensures Expand(a + [l] + b) == Expand(a) + ([l] + Expand(b))
  {
    ExpandAppend(a + [l], b);
    ExpandAppend(a, [l]);
    ExpandSingle(l);
    Associate(Expand(a), [l], Expand(b));
  }

  lemma ExpandSingle(l: char)
    requires !IsDigit(l)
    ensures Expand([l]) == [l]
  {
    assert [l][1..] == [];
  }

  lemma Associate(a: string, b: string, c: string)
    ensures a + b + c == a + (b + c)
  {
  }

  /**
   * A rank field expands to exactly the row it was written from: eight
   * squares, each piece by its letter and each empty square by a dot.
   */
  lemma RankFieldRoundTrip(row: seq<Option<Piece>>)
    requires |row| == 8
    ensures Expand(RankField(row)) == Picture(row)
    ensures |Expand(RankField(row))| == 8
  {
    FieldFromExpands(row, 0, 0);
    PictureFromSlice(row, 0);
    assert Dots(0) + Picture(row)[0..] == Picture(row);
  }

  /** No two consecutive characters are both digits. */
  predicate NoAdjacentDigits(s: string)
  {
    forall i :: 0 <= i < |s| - 1 ==> !(IsDigit(s[i]) && IsDigit(s[i + 1]))
  }

  lemma NoAdjacentDigitsAppend(a: string, b: string)
    requires NoAdjacentDigits(a) && NoAdjacentDigits(b)
    requires a == [] || b == [] || !IsDigit(a[|a| - 1]) || !IsDigit(b[0])
    ensures NoAdjacentDigits(a + b)
  {
    var s := a + b;
    forall i | 0 <= i < |s| - 1
      ensures !(IsDigit(s[i]) && IsDigit(s[i + 1]))
    {
      if i + 1 < |a| {
        assert s[i] == a[i] && s[i + 1] == a[i + 1];
      } else if i >= |a| {
        assert s[i] == b[i - |a|] && s[i + 1] == b[i + 1 - |a|];
      }
    }
  }

  lemma {:induction false} FieldFromNoAdjacentDigits(row: seq<Option<Piece>>, col: nat, empty: nat)
    requires |row| == 8 && empty <= col <= 8
    ensures NoAdjacentDigits(FieldFrom(row, col, empty))
    decreases 8 - col
  {
    if col < 8 {
      if row[col].Some? {
        var l := PieceLetter(row[col].value);
        FieldFromNoAdjacentDigits(row, col + 1, 0);
        assert |Flush(empty)| <= 1;
        NoAdjacentDigitsAppend(Flush(empty), [l]);
        NoAdjacentDigitsAppend(Flush(empty) + [l], FieldFrom(row, col + 1, 0));
      } else {
        FieldFromNoAdjacentDigits(row, col + 1, empty + 1);
      }
    } else {
      assert |Flush(empty)| <= 1;
    }
  }

  /**
   * The shape of a rank field: empty squares are written as one count
   * (never two digits in a row), and no '/' or space appears in it.
   */
  lemma RankFieldShape(row: seq<Option<Piece>>)
    requires |row| == 8
    ensures NoAdjacentDigits(RankField(row))
    ensures '/' !in RankField(row) && ' ' !in RankField(row)
  {
    FieldFromNoAdjacentDigits(row, 0, 0);
    FieldFromPlain(row, 0, 0);
  }

  lemma {:induction false} FieldFromPlain(row: seq<Option<Piece>>, col: nat, empty: nat)
    requires |row| == 8 && col <= 8
    ensures forall i :: 0 <= i < |FieldFrom(row, col, empty)| ==>
      IsDigit(FieldFrom(row, col, empty)[i]) || FieldFrom(row, col, empty)[i] in "pnbrqkPNBRQK"
    decreases 8 - col
  {
    if col < 8 {
      if row[col].Some? {
        FieldFromPlain(row, col + 1, 0);
      } else {
        FieldFromPlain(row, col + 1, empty + 1);
      }
    }
  }

  // ---------------------------------------------------------------------------
  // The placement field
  // ---------------------------------------------------------------------------

  /** The fields with `sep` between consecutive ones. */
  function Join(fields: seq<string>, sep: char): string
  {
    if |fields| == 0 then ""
    else if |fields| == 1 then fields[0]
    else Join(fields[..|fields| - 1], sep) + [sep] + fields[|fields| - 1]
  }

  /** `QString::split(sep)`: the pieces between the separators, empty ones kept. */
  function Split(s: string, sep: char): (parts: seq<string>)
    ensures |parts| >= 1
  {
    if s == [] then [""]
    else
      var rest := Split(s[1..], sep);
      if s[0] == sep then [""] + rest else [[s[0]] + rest[0]] + rest[1..]
  }

  lemma {:induction false} SplitAppend(a: string, b: string, sep: char)
    ensures Split(a + [sep] + b, sep) == Split(a, sep) + Split(b, sep)
    decreases |a|
  {
    if a == [] {
      assert a + [sep] + b == [sep] + b;
      assert ([sep] + b)[1..] == b;
    } else {
      assert (a + [sep] + b)[1..] == a[1..] + [sep] + b;
      SplitAppend(a[1..], b, sep);
    }
  }

  lemma {:induction false} SplitPlain(s: string, sep: char)
    requires sep !in s
    ensures Split(s, sep) == [s]
    decreases |s|
  {
    if s != [] {
      SplitPlain(s[1..], sep);
      assert [s[0]] + s[1..] == s;
    }
  }

  /** Splitting a joined list of separator-free fields gives the fields back. */
  lemma {:induction false} SplitJoin(fields: seq<string>, sep: char)
    requires |fields| >= 1 && forall i :: 0 <= i < |fields| ==> sep !in fields[i]
    ensures Split(Join(fields, sep), sep) == fields
    decreases |fields|
  {
    var n := |fields|;
    if n == 1 {
      SplitPlain(fields[0], sep);
    } else {
      var init := fields[..n - 1];
      SplitJoin(init, sep);
      SplitAppend(Join(init, sep), fields[n - 1], sep);
      SplitPlain(fields[n - 1], sep);
      assert init + [fields[n - 1]] == fields;
    }
  }

  /** Rows 0 to 7, the order of chessai.cpp. */
  const TopDown: seq<int> := [0, 1, 2, 3, 4, 5, 6, 7]

  /** Rows 7 down to 0, the order of stockfishengine.cpp and uciengine.cpp. */
  const BottomUp: seq<int> := [7, 6, 5, 4, 3, 2, 1, 0]

  predicate RowOrder(rows: seq<int>)
  {
    |rows| == 8 && forall i :: 0 <= i < 8 ==> 0 <= rows[i] < 8
  }

  /** The rank fields of the rows, in the given order. */
  function Fields(g: Grid, rows: seq<int>): (fs: seq<string>)
    requires RowOrder(rows)
    ensures |fs| == 8 && forall i :: 0 <= i < 8 ==> fs[i] == RankField(g[rows[i]])
  {
    seq(8, (i: int) requires 0 <= i < 8 => RankField(g[rows[i]]))
  }

  /** The placement field: the rank fields of the rows joined by '/'. */
  function Placement(g: Grid, rows: seq<int>): string
    requires RowOrder(rows)
  {
    Join(Fields(g, rows), '/')
  }

  /**
   * The placement splits on '/' into exactly eight fields, the i-th of
   * which expands back to row `rows[i]` of the board; it contains no space.
   */
  lemma PlacementRoundTrip(g: Grid, rows: seq<int>)
    requires RowOrder(rows)
    ensures var parts := Split(Placement(g, rows), '/');
      |parts| == 8 &&
      forall i :: 0 <= i < 8 ==> Expand(parts[i]) == Picture(g[rows[i]]) && NoAdjacentDigits(parts[i])
  {
    var fs := Fields(g, rows);
    forall i | 0 <= i < 8
      ensures '/' !in fs[i] && ' ' !in fs[i]
      ensures Expand(fs[i]) == Picture(g[rows[i]]) && NoAdjacentDigits(fs[i])
    {
      RankFieldShape(g[rows[i]]);
      RankFieldRoundTrip(g[rows[i]]);
    }
    SplitJoin(fs, '/');
  }

  /** The placement holds no space, so it is one space-separated field of the FEN string. */
  lemma PlacementNoSpace(g: Grid, rows: seq<int>)
    requires RowOrder(rows)
    ensures ' ' !in Placement(g, rows)
  {
    var fs := Fields(g, rows);
    forall i | 0 <= i < 8
      ensures ' ' !in fs[i]
    {
      FieldFromPlain(g[rows[i]], 0, 0);
    }
    JoinNoSpace(fs);
  }

  lemma {:induction false} JoinNoSpace(fields: seq<string>)
    requires forall i :: 0 <= i < |fields| ==> ' ' !in fields[i]
    ensures ' ' !in Join(fields, '/')
    decreases |fields|
  {
    if |fields| > 1 {
      JoinNoSpace(fields[..|fields| - 1]);
    }
  }

  // ---------------------------------------------------------------------------
  // The loops that write it
  // ---------------------------------------------------------------------------

  /** The column loop of one row, with its `emptyCount` accumulator. */
  method WriteRankField(board: array2<Option<Piece>>, row: int) returns (field: string)
    requires board.Length0 == 8 && board.Length1 == 8 && 0 <= row < 8
    ensures field == RankField(Snapshot(board)[row])
  {
    ghost var r := Snapshot(board)[row];
    field := "";
    var emptyCount := 0;
    var col := 0;
    while col < 8
      invariant 0 <= emptyCount <= col <= 8
      invariant field + FieldFrom(r, col, emptyCount) == RankField(r)
    {
      var piece := board[row, col];
      assert piece == r[col];
      if piece.Some? {
        ghost var before, e := field, emptyCount;
        ghost var letter := [PieceLetter(piece.value)];
        assert FieldFrom(r, col, e) == Flush(e) + letter + FieldFrom(r, col + 1, 0);
        if emptyCount > 0 {
          field := field + NatToString(emptyCount);
          emptyCount := 0;
        }
        field := field + [PieceLetter(piece.value)];
        assert field == before + Flush(e) + letter;
        Regroup(before, Flush(e), letter, FieldFrom(r, col + 1, 0));
      } else {
        assert FieldFrom(r, col, emptyCount) == FieldFrom(r, col + 1, emptyCount + 1);
        emptyCount := emptyCount + 1;
      }
      col := col + 1;
    }
    assert FieldFrom(r, 8, emptyCount) == Flush(emptyCount);
    if emptyCount > 0 {
      field := field + NatToString(emptyCount);
    }
  }

  lemma Regroup(a: string, b: string, c: string, d: string)
    ensures a + b + c + d == a + (b + c + d)
  {
  }

  /** The row loop: each row's field, then '/' after every row but the last. */
  method WritePlacement(board: array2<Option<Piece>>, rows: seq<int>) returns (fen: string)
    requires board.Length0 == 8 && board.Length1 == 8 && RowOrder(rows)
    ensures fen == Placement(Snapshot(board), rows)
  {
    ghost var fs := Fields(Snapshot(board), rows);
    fen := "";
    for i := 0 to 8
      invariant fen == Join(fs[..i], '/') + (if 0 < i < 8 then "/" else "")
    {
      var field := WriteRankField(board, rows[i]);
      assert fs[..i + 1][..i] == fs[..i];
      fen := fen + field;
      if i < 7 {
        fen := fen + "/";
      }
    }
    assert fs[..8] == fs;
  }

  // ---------------------------------------------------------------------------
  // The castling field
  // ---------------------------------------------------------------------------

  /** The four castling letters as they are appended, or "-" when none is. */
  function CastlingField(wk: bool, wq: bool, bk: bool, bq: bool): string
  {
    var s := (if wk then "K" else "") + (if wq then "Q" else "") + (if bk then "k" else "") + (if bq then "q" else "");
    if s == "" then "-" else s
  }

  /** The castling letters appended one right at a time, then "-" if none was. */
  method WriteCastlingField(wk: bool, wq: bool, bk: bool, bq: bool) returns (castling: string)
    ensures castling == CastlingField(wk, wq, bk, bq)
  {
    castling := "";
    if wk { castling := castling + "K"; }
    if wq { castling := castling + "Q"; }
    if bk { castling := castling + "k"; }
    if bq { castling := castling + "q"; }
    if castling == "" { castling := "-"; }
  }

  /** The position of a castling letter in "KQkq". */
  function CastlingRank(c: char): int
  {
    if c == 'K' then 0 else if c == 'Q' then 1 else if c == 'k' then 2 else 3
  }

  /** The castling field is "-" exactly when no right is granted. */
  lemma CastlingFieldNone(wk: bool, wq: bool, bk: bool, bq: bool)
    ensures CastlingField(wk, wq, bk, bq) == "-" <==> !(wk || wq || bk || bq)
  {
    var s := (if wk then "K" else "") + (if wq then "Q" else "") + (if bk then "k" else "") + (if bq then "q" else "");
    if wk || wq || bk || bq {
      assert |s| > 0 && s[0] in "KQkq";
      assert CastlingField(wk, wq, bk, bq) == s != "-";
    }
  }

  /** Letters of strictly increasing castling rank. */
  predicate InCastlingOrder(s: string)
  {
    forall i, j :: 0 <= i < j < |s| ==> CastlingRank(s[i]) < CastlingRank(s[j])
  }

  lemma OrderAppend(a: string, b: string)
    requires InCastlingOrder(a) && InCastlingOrder(b)
    requires forall i, j :: 0 <= i < |a| && 0 <= j < |b| ==> CastlingRank(a[i]) < CastlingRank(b[j])
    ensures InCastlingOrder(a + b)
  {
    var s := a + b;
    forall i, j | 0 <= i < j < |s|
      ensures CastlingRank(s[i]) < CastlingRank(s[j])
    {
      if j < |a| {
        assert s[i] == a[i] && s[j] == a[j];
      } else if i >= |a| {
        assert s[i] == b[i - |a|] && s[j] == b[j - |a|];
      } else {
        assert s[i] == a[i] && s[j] == b[j - |a|];
      }
    }
  }

  /** Otherwise the letters appear in K, Q, k, q order ... */
  lemma CastlingFieldOrder(wk: bool, wq: bool, bk: bool, bq: bool)
    requires wk || wq || bk || bq
    ensures InCastlingOrder(CastlingField(wk, wq, bk, bq))
  {
    var a, b, c, d := (if wk then "K" else ""), (if wq then "Q" else ""), (if bk then "k" else ""), (if bq then "q" else "");
    CastlingFieldNone(wk, wq, bk, bq);
    assert CastlingField(wk, wq, bk, bq) == a + b + c + d;
    OrderAppend(a, b);
    OrderAppend(a + b, c);
    OrderAppend(a + b + c, d);
  }

  /** ... and each granted right's letter appears, and only those. */
  lemma CastlingFieldLetters(wk: bool, wq: bool, bk: bool, bq: bool)
    requires wk || wq || bk || bq
    ensures var s := CastlingField(wk, wq, bk, bq);
      ('K' in s <==> wk) && ('Q' in s <==> wq) && ('k' in s <==> bk) && ('q' in s <==> bq)
  {
    var a, b, c, d := (if wk then "K" else ""), (if wq then "Q" else ""), (if bk then "k" else ""), (if bq then "q" else "");
    CastlingFieldNone(wk, wq, bk, bq);
    var s := a + b + c + d;
    assert CastlingField(wk, wq, bk, bq) == s;
    assert forall x :: x in s <==> x in a || x in b || x in c || x in d;
  }

  /** The castling field never holds a space. */
  lemma CastlingFieldNoSpace(wk: bool, wq: bool, bk: bool, bq: bool)
    ensures ' ' !in CastlingField(wk, wq, bk, bq)
  {
    var s := (if wk then "K" else "") + (if wq then "Q" else "") + (if bk then "k" else "") + (if bq then "q" else "");
    assert forall x :: x in s ==> x in "KQkq";
  }

  // ---------------------------------------------------------------------------
  // The whole string
  // ---------------------------------------------------------------------------

  /** The side-to-move field. */
  function TurnLetter(c: Color): string
  {
    if c == White then "w" else "b"
  }

  /**
   * The six fields separated by single spaces; all three writers emit a
   * halfmove clock of 0 and a fullmove number of 1.
   */
  function FenString(placement: string, turn: string, castling: string, ep: string): string
  {
    placement + " " + turn + " " + castling + " " + ep + " 0 1"
  }

  /** Splitting on spaces recovers the six fields when none of them holds a space. */
  lemma FenFields(placement: string, turn: string, castling: string, ep: string)
    requires ' ' !in placement && ' ' !in turn && ' ' !in castling && ' ' !in ep
    ensures Split(FenString(placement, turn, castling, ep), ' ') == [placement, turn, castling, ep, "0", "1"]
  {
    var r4 := "0" + " " + "1";
    var r3 := ep + " " + r4;
    var r2 := castling + " " + r3;
    var r1 := turn + " " + r2;
    assert FenString(placement, turn, castling, ep) == placement + " " + r1;
    SplitPlain("0", ' ');
    SplitPlain("1", ' ');
    SplitAppend("0", "1", ' ');
    SplitPlain(ep, ' ');
    SplitAppend(ep, r4, ' ');
    SplitPlain(castling, ' ');
    SplitAppend(castling, r3, ' ');
    SplitPlain(turn, ' ');
    SplitAppend(turn, r2, ' ');
    SplitPlain(placement, ' ');
    SplitAppend(placement, r1, ' ');
  }
}
