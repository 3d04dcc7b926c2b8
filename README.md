# Chess rules engine and engine encoders

A Dafny model of the rules engine of a Qt chess game and of the encoders around it:

- `ChessBoard` in chessboard.cpp. It covers move validation and execution, en passant, promotion, castling, check detection, checkmate, stalemate and the post-move status.
- The per-piece move rules in chesspiece.cpp.
- In chessai.cpp: the static evaluation, the greedy move choice, the move list, the UCI move strings and the FEN writer.
- In stockfishengine.cpp: the FEN writer, skill options, think time, move decoding and `bestmove` parsing.
- In uciengine.cpp: square names, the FEN writer and the line handler.

The board is an `array2<Option<Piece>>` indexed `[row, col]`. A square is a `Point(x, y)`, which follows `QPoint(x, y)`.

The model gives each part the shape of its source code:

- Code that loops or updates fields becomes methods. Each method over the board is proved equal to a specification function of the board value `Snapshot(board)` or of the game-state value `State()` (turn, en-passant target, history and status included). `ChessAI.GetMovesInUci` is a function of the move history. The methods of the two engine classes state their field updates and the lines they send directly.
- The pieces are values. `new` and `delete` become overwriting a square.
- Properties of the specification functions are proved as lemmas.

Files and modules:

| file | module | contents |
|---|---|---|
| core.dfy | `Core` | pieces, squares, the board value `Grid`, `Snapshot`, Latin-1 characters, decimal numbers |
| pieces.dfy | `Pieces` | `getSymbol`, each piece's `isValidMove`, the sliding pieces' path loops |
| attacks.dfy | `Attacks` | `isSquareAttacked`, `findKingOnBoard`, the simulated board of `wouldBeInCheck` |
| gamestate.dfy | `GameRules` | the game state as a value, the starting position, legality, castling and the effect of one move (`Step`) |
| chessboard.dfy | `Board` | the `ChessBoard` class and its methods |
| movelaws.dfy | `MoveLaws` | properties of a move and of the check, mate and stalemate tests |
| fen.dfy | `Fen` | the rank-field grammar the three FEN writers share, `QString::split`, castling fields |
| chessai.dfy | `ChessAI` | evaluation, move lists, greedy choice, UCI strings, FEN |
| stockfish.dfy | `Stockfish` | skill options, FEN, move decoding, `bestmove` parsing, the `StockfishEngine` class |
| uciengine.dfy | `Uci` | square names, FEN, line handling, the `UciEngine` class |

The three source files use three coordinate conventions, and each is modelled as written:

- chessboard.cpp uses `QPoint(col, row)`.
- chessai.cpp uses `QPoint(row, col)`. Its rank digit is `'8' - row`.
- stockfishengine.cpp and uciengine.cpp use `QPoint(row, col)`. Their rank digit is `'1' + row`.

Several source behaviours are kept as written because the code does exactly this:

- **Transposed path reads.** The path loop of the rook, bishop and queen reads `getPieceAt(currentX, currentY)`, that is row `x` and column `y`. `MoveLaws.BishopPassesOwnPawnAtStart` shows a consequence: on the starting board the c1 bishop may jump over its own pawn.
- **Castling is not gated by `canCastle`.** `movePiece` castles on any legal two-column king move. Only `King::isValidMove` and `wouldBeInCheck` gate it.
- **The status tests the mover.** The status after a move examines the colour that just moved.
- **The Stockfish castling field ignores colour.** It reads row 0 for "K" and "Q" and row 7 for "k" and "q", and checks only kind and unmoved flags.
- **`bestmove` after a newline is missed.** The Stockfish response is split on spaces only, so a `bestmove` after a newline is glued to the line before it and missed (`Stockfish.ReplyAfterNewline`).

## Model

| member | source | states |
|---|---|---|
| Core.Place | chessboard.cpp:488-489 | one square is overwritten and every other square keeps its content |
| Core.Snapshot | chessboard.cpp:80-83 | the board value holds, square by square, what the array holds |
| Core.NatToString | stockfishengine.cpp:120 | `QString::number` of a natural number is a non-empty string of decimal digits with no leading '0' unless the number is 0 |
| Core.NatToStringValue | stockfishengine.cpp:120 | the digits `QString::number` writes spell the number in decimal |
| Pieces.Symbol | chesspiece.cpp:9-22 | the glyph is one character, in the white range U+2654..U+2659 exactly for White pieces |
| Pieces.SymbolDeterminesPiece | chesspiece.cpp:9-22 | two pieces get the same glyph exactly when they have the same kind and colour |
| Pieces.WalkPath | chesspiece.cpp:88-100 | the path loop returns true exactly when every square it reads (row = x, col = y) before the target is empty |
| Pieces.OwnPieceOnArray | chesspiece.cpp:103-106 | reports whether the target holds a piece of the mover's colour |
| Pieces.RookIsValidMove | chesspiece.cpp:73-109 | the method's answer equals the rook rule on the board value |
| Pieces.BishopIsValidMove | chesspiece.cpp:141-177 | the method's answer equals the bishop rule on the board value |
| Pieces.QueenIsValidMove | chesspiece.cpp:184-220 | the method's answer equals the queen rule on the board value |
| Pieces.IsValidMove | chesspiece.cpp:29-249 | the virtual `isValidMove` call equals the rule of the piece's kind |
| Pieces.RulesRejectOffBoardAndOwnSquare | chesspiece.cpp:30-31 | no rule accepts an off-board target or the piece's own square (the same two guards open every rule) |
| Pieces.RulesNeverCaptureOwnPiece | chesspiece.cpp:104-105 | no rule lands on a piece of the mover's colour, except the en-passant square and the king's two-column move |
| Pieces.PathClearIff | chesspiece.cpp:92-100 | the path loop succeeds exactly when each of the squares it reads, transposed, is empty |
| Pieces.SlidingBlockedPathRejects | chesspiece.cpp:92-97 | a rook, bishop or queen move is rejected when any square the loop reads at (row x0+i*sx, col y0+i*sy) is occupied |
| Pieces.QueenIsRookOrBishop | chesspiece.cpp:184-220 | the queen accepts exactly the moves a rook or a bishop on its square would accept |
| Pieces.SlidingDirections | chesspiece.cpp:81 | rook moves keep a coordinate, bishop moves are diagonal and not null, queen moves are one of the two |
| Pieces.PawnMoves | chesspiece.cpp:33-63 | pawns only advance: one or two rows in their direction and at most one column aside; a two-row move is straight, by an unmoved pawn, over an empty square; a straight move never captures |
| Pieces.KingTwoColumnsIgnoresBoard | chesspiece.cpp:244-245 | an unmoved king may step two columns on its row whatever the board holds |
| Attacks.FindKingFrom | chessboard.cpp:266-276 | the scan resumed at a square finds the first king of the colour at or after it in row-major order, or (-1, -1) exactly when there is none |
| Attacks.FindKing | chessboard.cpp:239-251 | the first king of the colour in row-major order as `QPoint(col, row)`, or (-1, -1) exactly when the colour has no king |
| Attacks.Simulate | chessboard.cpp:381-387 | the simulated board empties `from`, holds the mover on `to`, and keeps every other square |
| Attacks.ScanRay | chessboard.cpp:319-356 | one ray walk reports a hit exactly when the first occupied square along the ray holds a piece of the attacker that is of the given kind or a queen |
| Attacks.PawnCheck | chessboard.cpp:286-309 | reports exactly the pawn attack: an attacking pawn one row behind the square and one column to the side |
| Attacks.KnightCheck | chessboard.cpp:310-318 | reports exactly whether a knight of the attacker stands one knight jump away |
| Attacks.SlideCheck | chessboard.cpp:319-356 | reports exactly whether some listed direction's ray walk hits a rook, bishop or queen of the attacker |
| Attacks.KingCheck | chessboard.cpp:357-368 | reports exactly whether the attacker's king stands on one of the eight neighbours |
| Attacks.IsSquareAttacked | chessboard.cpp:280-369 | the answer is the disjunction of the five attack checks |
| Attacks.FindKingOnBoard | chessboard.cpp:265-277 | the nested loop returns the first king of the colour in row-major order, or (-1, -1) |
| Attacks.KnightAttackIffKnightMove | chessboard.cpp:310-318 | a square not held by colour c is attacked by a knight of c exactly when some knight of c may move there under `Knight::isValidMove` |
| Attacks.KnightIndex | chessboard.cpp:311 | every knight jump is one of the eight entries of `knOff` |
| Attacks.PawnAttackIffPawnCapture | chessboard.cpp:286-309 | an opposing piece is attacked by a pawn of c exactly when some pawn of c may capture it under `Pawn::isValidMove` |
| Attacks.KingAttackIffKingStep | chessboard.cpp:357-368 | a square not held by colour c is next to c's king exactly when that king may step onto it |
| Attacks.KingNeighbourSteps | chessboard.cpp:357-368 | a neighbouring king of colour c may step onto a square c does not hold |
| Attacks.KingStepIsNeighbour | chessboard.cpp:357-368 | a one-step king move onto a square means the king is a neighbour that the king check finds |
| GameRules.InitialGrid | chessboard.cpp:30-70 | 32 pieces on rows 0, 1, 6 and 7, Black on rows 0 and 1, pawns on rows 1 and 6, kings on [0][4] and [7][4] and nowhere else, nothing moved, each piece's stored position equal to its square |
| GameRules.CastledTouchesOnlyFourSquares | chessboard.cpp:477-498 | castling changes only the four home-row squares of the king, the rook and their new columns |
| GameRules.CastlingResult | chessboard.cpp:477-498 | the king lands on column 6 or 2 and the rook on column 5 or 3, both moved and holding their new squares, and columns 4 and 7 or 0 become empty |
| GameRules.StepKeepsWellFormed | chessboard.cpp:123-212 | after a move every piece still stores its square, and the en-passant target is (-1, -1) or a square on rows 1 to 6 |
| Board.ChessBoard.constructor | chessboard.cpp:4-13 | the new board holds the starting position |
| Board.ChessBoard.ClearBoard | chessboard.cpp:19-28 | every square is emptied |
| Board.ChessBoard.InitializeBoard | chessboard.cpp:30-74 | the starting position, White to move, en passant (-1, -1), empty history, "Game in progress", not over |
| Board.ChessBoard.Put | chessboard.cpp:35-63 | one assignment to the array changes exactly that square |
| Board.ChessBoard.GetPieceAt | chessboard.cpp:80-91 | null off the board, otherwise the square's content |
| Board.ChessBoard.CanMove | chessboard.cpp:93-99 | true exactly for a piece of the side to move whose rule accepts the target |
| Board.ChessBoard.SwitchTurn | chessboard.cpp:234-237 | the side to move flips and nothing else changes |
| Board.ChessBoard.FindKing | chessboard.cpp:239-251 | the first king of the colour in row-major order, or (-1, -1) |
| Board.ChessBoard.IsKingInCheck | chessboard.cpp:253-262 | true exactly when the colour has a king and its square is attacked by the other colour |
| Board.ChessBoard.WouldBeInCheck | chessboard.cpp:372-407 | the answer is the check test on the simulated board; the live board is not modified |
| Board.ChessBoard.HasAnyValidMoves | chessboard.cpp:409-429 | true exactly when some piece of the colour has a target its rule accepts that does not leave the king in check |
| Board.ChessBoard.IsCheckmate | chessboard.cpp:431-434 | in check and without a legal move |
| Board.ChessBoard.IsStalemate | chessboard.cpp:436-439 | not in check and without a legal move |
| Board.ChessBoard.CanCastle | chessboard.cpp:441-475 | an unmoved king and rook in place, the king not in check, the squares between empty, and the king safe on the three squares it crosses |
| Board.ChessBoard.SquaresEmpty | chessboard.cpp:459-463 | true exactly when every square of the row between the two columns is empty |
| Board.ChessBoard.KingPathSafe | chessboard.cpp:466-472 | true exactly when the king moving 0, 1 and 2 columns towards the rook is never left in check |
| Board.ChessBoard.PerformCastling | chessboard.cpp:477-498 | the board becomes the castled board |
| Board.ChessBoard.Finish | chessboard.cpp:153-173 | one history entry appended, the turn flipped once, status and game-over set for the colour that just moved |
| Board.ChessBoard.Evaluate | chessboard.cpp:214-229 | checkmate, stalemate, check or "Game in progress", in that order; only the first two end the game |
| Board.ChessBoard.MovePiece | chessboard.cpp:101-232 | returns whether the move is legal; an illegal move or `checkOnly` changes nothing; otherwise the new state is `Step` of the old one |
| Board.ChessBoard.ExecuteMove | chessboard.cpp:116-231 | playing a legal move yields `Step` of the old state |
| Board.ChessBoard.TakeEnPassant | chessboard.cpp:120-131 | a pawn moving onto the en-passant target empties the square behind it and records that piece as captured |
| Board.ChessBoard.UpdateBoard | chessboard.cpp:117-152 | the board, en-passant target and history record after capture, promotion, castling or the plain move |
| Board.ChessBoard.RelocateOnBoard | chessboard.cpp:143-209 | promotion to a queen, castling, or the plain move, as the three branches do |
| MoveLaws.LegalMovesAway | chessboard.cpp:101-112 | a legal move starts on a piece of the side to move and never ends on its own square |
| MoveLaws.StepBookkeeping | chessboard.cpp:153-154 | a move flips the turn once, appends exactly one history entry naming the move, and leaves every piece storing its own square |
| MoveLaws.StepKeepsGameOver | chessboard.cpp:159-165 | once the game is over it stays over |
| MoveLaws.StepEnPassantTarget | chessboard.cpp:133-141 | the new target is set exactly when a pawn moved two rows, and it is the square it skipped |
| MoveLaws.StepEnPassantCapture | chessboard.cpp:123-128 | an en-passant capture empties the square behind the target and records its piece as captured |
| MoveLaws.StepPromotes | chessboard.cpp:144-152 | a pawn reaching the far row becomes a queen of its colour on `to`, marked as moved, and `from` is emptied |
| MoveLaws.StepCastles | chessboard.cpp:178-181 | a two-column king move castles on the home row of the side to move |
| MoveLaws.StepMovesPiece | chessboard.cpp:205-209 | any other move carries the piece to `to`, stores `to` as its position, marks it moved, empties `from`, and changes no other square except the en-passant victim's |
| MoveLaws.CastlingNeedsNoRook | chessboard.cpp:178-181 | an unmoved king's two-column move that does not leave it in check is legal whether or not a rook is there |
| MoveLaws.CastlingAllowedIsLegal | chessboard.cpp:441-475 | when `canCastle` grants a side to the player to move, whose king stands on its home square, the king's two-column move towards that side is legal |
| MoveLaws.MateAndStalemateExclusive | chessboard.cpp:431-439 | checkmate and stalemate exclude each other, and either holds exactly when there is no legal move |
| MoveLaws.RayHitMaterial | chessboard.cpp:319-356 | a ray walk reads only kinds and colours |
| MoveLaws.AttackedMaterial | chessboard.cpp:280-369 | `isSquareAttacked` reads only the kind and colour of each square |
| MoveLaws.FindKingFromMaterial | chessboard.cpp:265-277 | the king search reads only kinds and colours |
| MoveLaws.InCheckMaterial | chessboard.cpp:253-262 | the check test reads only kinds and colours |
| MoveLaws.MoverNotInCheckAfterMove | chessboard.cpp:215-216 | after a plain legal move, the colour that moved is not in check |
| MoveLaws.StatusAfterMoveNeverCheck | chessboard.cpp:215-229 | hence such a move's status is "Stalemate - Draw!" or "Game in progress", never a check or a checkmate |
| MoveLaws.BishopPassesOwnPawnAtStart | chesspiece.cpp:160-165 | on the starting board the white bishop on c1 may move to e3 although its own pawn stands between them |
| MoveLaws.BishopMovableAtStart | chessboard.cpp:93-99 | that bishop move passes the turn check and the piece rule |
| MoveLaws.BishopKeepsKingSafeAtStart | chessboard.cpp:372-407 | that bishop move does not leave the white king in check |
| MoveLaws.BishopRuleAtStart | chesspiece.cpp:141-177 | the bishop's path loop reads only square [3][6], which is empty |
| MoveLaws.KingFoundAtStart | chessboard.cpp:265-277 | after that bishop move the white king is found on [7][4] |
| MoveLaws.AttackedAtStart | chessboard.cpp:280-369 | after that bishop move no black piece attacks [7][4] |
| Fen.PieceLetter | chessai.cpp:440-453 | the FEN letter is one of "pnbrqkPNBRQK", uppercase exactly for White |
| Fen.PieceLetterDeterminesPiece | chessai.cpp:440-453 | two pieces get the same letter exactly when they have the same kind and colour |
| Fen.RankFieldRoundTrip | chessai.cpp:432-463 | a rank field expands (digit n to n dots) back to exactly the eight squares of its row |
| Fen.FieldFromExpands | chessai.cpp:432-463 | the rest of a rank field, written from a column with a pending empty count, expands to that many dots followed by the rest of the row |
| Fen.RankFieldShape | chessai.cpp:435-438 | no two digits are adjacent in a rank field, and it holds no '/' or space |
| Fen.FieldFromNoAdjacentDigits | chessai.cpp:435-438 | the pending count is flushed before each letter, so digits never touch |
| Fen.FieldFromPlain | chessai.cpp:432-463 | a rank field holds only digits and piece letters |
| Fen.Split | stockfishengine.cpp:283 | `QString::split` gives at least one part |
| Fen.SplitAppend | stockfishengine.cpp:283 | splitting text joined by the separator splits each side |
| Fen.SplitJoin | chessai.cpp:465-467 | separator-free fields joined by the separator split back into the same fields |
| Fen.Fields | chessai.cpp:430-468 | eight rank fields, the i-th written from the i-th row of the order |
| Fen.PlacementRoundTrip | chessai.cpp:430-468 | the placement splits on '/' into exactly eight fields, each expanding to its row with no adjacent digits |
| Fen.PlacementNoSpace | chessai.cpp:430-468 | the placement holds no space |
| Fen.WriteRankField | chessai.cpp:431-463 | the column loop with its `emptyCount` writes exactly the rank field of the row |
| Fen.WritePlacement | chessai.cpp:430-468 | the row loop writes exactly the placement in the given row order |
| Fen.WriteCastlingField | chessai.cpp:474-479 | the castling letters appended one by one, "-" when none, equal the castling field |
| Fen.CastlingFieldNone | chessai.cpp:479 | the castling field is "-" exactly when no right is granted |
| Fen.CastlingFieldOrder | chessai.cpp:475-478 | otherwise its letters appear in K, Q, k, q order |
| Fen.CastlingFieldLetters | chessai.cpp:475-478 | each letter appears exactly when its right is granted |
| Fen.CastlingFieldNoSpace | chessai.cpp:474-480 | the castling field holds no space |
| Fen.FenFields | chessai.cpp:471-493 | splitting the FEN string on spaces gives placement, turn, castling, en passant, "0" and "1" |
| ChessAI.PieceValue | chessai.cpp:87-107 | 0 exactly for no piece, 100..20000 for a piece, 20000 for a king |
| ChessAI.NonKingMaterialBound | chessai.cpp:87-107 | no piece but the king is worth more than a queen, so a side's non-king material is at most 900 per piece |
| ChessAI.KingOutweighsMaterial | chessai.cpp:87-107 | on any board, the value of at most fifteen non-king pieces of one colour is below the king's |
| ChessAI.MaterialInRowAntisymmetric | chessai.cpp:114-126 | one row's material for one side is minus that for the other |
| ChessAI.MaterialAntisymmetric | chessai.cpp:114-126 | what one side gains in material the other loses |
| ChessAI.CentreInRowSum | chessai.cpp:129-136 | one row's centre bonuses are non-negative and at most 30 per square together |
| ChessAI.CentreSum | chessai.cpp:129-136 | the two sides' centre bonuses are non-negative and together at most 30 per centre square |
| ChessAI.EvaluationSymmetry | chessai.cpp:109-147 | the two sides' evaluations sum to their centre bonuses, between 0 and 120 |
| ChessAI.EvaluateBoard | chessai.cpp:109-147 | the score is material plus centre bonus plus the two 50-point check terms |
| ChessAI.CheckScore | chessai.cpp:139-144 | +50 when the opponent is in check, -50 when the AI's side is in check |
| ChessAI.MaterialScore | chessai.cpp:114-126 | plus each own piece's value, minus each opposing piece's value |
| ChessAI.CentreScore | chessai.cpp:129-136 | 30 per own piece on rows 3..4, columns 3..4 |
| ChessAI.TargetsBeforeMembers | chessai.cpp:59-66 | a pair is collected by the target loops exactly when `canMove` accepts it and its target comes before the loop position |
| ChessAI.OriginsBeforeMembers | chessai.cpp:53-69 | a pair is collected by the origin loops exactly when its origin holds a piece of the colour before the loop position and `canMove` accepts it |
| ChessAI.AllValidMovesMembers | chessai.cpp:49-72 | a pair is listed exactly when its origin `QPoint(row, col)` holds a piece of the colour, both points lie in 0..7 and `canMove` accepts it |
| ChessAI.OriginBeforeEnd | chessai.cpp:53-54 | every origin square is visited by the loops |
| ChessAI.GetAllValidMoves | chessai.cpp:49-72 | the four nested loops produce exactly the list `AllValidMoves` describes |
| ChessAI.TargetsOf | chessai.cpp:59-66 | the two inner loops list the accepted targets of one origin in order |
| ChessAI.MoveScore | chessai.cpp:165-176 | a candidate's score lies in 0..20030, and at most 30 when it captures nothing |
| ChessAI.ScoreOf | chessai.cpp:165-176 | the loop body computes the capture value plus the centre bonus |
| ChessAI.GetBasicEvaluationMove | chessai.cpp:149-185 | (-1, -1) twice exactly when there is no valid move, else the first valid move of greatest score |
| ChessAI.BestOf | chessai.cpp:157-182 | the strict `>` keeps the first candidate of greatest score |
| ChessAI.MoveToUci | chessai.cpp:395-407 | the UCI string has four characters |
| ChessAI.UciToMove | chessai.cpp:409-422 | input shorter than four characters gives (-1, -1) twice |
| ChessAI.UciRoundTrip | chessai.cpp:395-422 | decoding an encoded move whose coordinates lie in 0..7 gives it back |
| ChessAI.MoveToUciShape | chessai.cpp:401-404 | an encoded on-board move is a file a..h and a rank 1..8, twice |
| ChessAI.AiFenFields | chessai.cpp:424-496 | the FEN splits on spaces into the rows 0..7 placement, "w"/"b", the `canCastle` letters, "-" or a square name, "0" and "1" |
| ChessAI.AiCastlingNoSpace | chessai.cpp:474-479 | the castling field holds no space |
| ChessAI.AiEnPassantShape | chessai.cpp:483-490 | the en-passant field is "-" or a file a..h and a rank 1..8 |
| ChessAI.BoardToFen | chessai.cpp:424-496 | the method writes exactly that FEN |
| ChessAI.CastlingRights | chessai.cpp:474-479 | the castling letters of the four `canCastle` calls |
| ChessAI.UciOfMoveShape | chessai.cpp:503-517 | each entry has 4 characters, or 5 ending in q, r, b or n exactly for a promotion; the first four encode the move |
| ChessAI.GetMovesInUci | chessai.cpp:498-523 | one string per history entry, in order |
| Stockfish.Elo | stockfishengine.cpp:126 | the Elo for skill 0..9 lies in 1000..1900 and increases with the skill |
| Stockfish.ThinkTime | stockfishengine.cpp:269 | the think time lies in 100..1100 ms and increases with the skill |
| Stockfish.SkillCommandsLimit | stockfishengine.cpp:120-130 | strength is limited exactly below level 10, and then the Elo line follows |
| Stockfish.SkillLineDiffers | stockfishengine.cpp:120 | the skill line is not a strength-limit line |
| Stockfish.EloLineDiffers | stockfishengine.cpp:127 | the Elo line is not the line that turns limiting off |
| Stockfish.UciMoveToPoints | stockfishengine.cpp:231-251 | input shorter than four characters gives (-1, -1) twice |
| Stockfish.UciMoveOfSquareNames | stockfishengine.cpp:231-251 | two square names from `positionToUCI` decode to those squares |
| Stockfish.NonEmpty | stockfishengine.cpp:283 | `Qt::SkipEmptyParts` leaves no empty part |
| Stockfish.TokensAppend | stockfishengine.cpp:283 | a space separates the words before it from those after it |
| Stockfish.TokensWord | stockfishengine.cpp:283 | a space-free non-empty word is one token |
| Stockfish.TokensJoin | stockfishengine.cpp:283 | words joined by spaces split back into the same words |
| Stockfish.BestMoveTokenFirst | stockfishengine.cpp:284-289 | the first "bestmove" followed by a word decides the token |
| Stockfish.BestMoveTokenNone | stockfishengine.cpp:284-289 | without a "bestmove" followed by a word there is no token |
| Stockfish.ReplyOfWords | stockfishengine.cpp:283-298 | a response whose first "bestmove" is followed by a move answers that move decoded, or no move for "(none)" |
| Stockfish.ReplyOfToken | stockfishengine.cpp:291-298 | the answer depends on the response only through the token after "bestmove" |
| Stockfish.ReplyOfSquareNames | stockfishengine.cpp:283-298 | "bestmove" with two square names answers the move between those squares |
| Stockfish.ReplyOfBestMoveWord | stockfishengine.cpp:283-298 | "bestmove " and one word answers that word decoded, or no move for "(none)" |
| Stockfish.ReplyAfterNewline | stockfishengine.cpp:283 | a "bestmove" that follows a newline is glued to the previous word, and the response answers no move |
| Stockfish.StockfishCastlingRights | stockfishengine.cpp:186-213 | "-" exactly when no row 0 or row 7 holds an unmoved king on column 4 beside an unmoved rook on column 7 or 0; otherwise K, Q, k, q order, each letter exactly for its condition |
| Stockfish.StockfishFenFields | stockfishengine.cpp:136-229 | the FEN splits on spaces into the rows 7..0 placement, "w"/"b", the castling field, "-" or a square name, "0" and "1" |
| Stockfish.CastlingNoSpace | stockfishengine.cpp:186-213 | the castling field holds no space |
| Stockfish.EnPassantShape | stockfishengine.cpp:216-223 | the en-passant field is "-" or a file a..h and a rank 1..8 |
| Stockfish.InitialCastling | stockfishengine.cpp:186-213 | the starting position gets "KQkq" |
| Stockfish.CastlingLetters | stockfishengine.cpp:186-211 | the nested `if`s collect exactly the castling field's letters |
| Stockfish.RowLetters | stockfishengine.cpp:191-200 | one row gives its king-side letter, then its queen-side letter, each exactly when its condition holds |
| Stockfish.BoardToFen | stockfishengine.cpp:136-229 | the method writes exactly that FEN |
| Stockfish.StockfishEngine.constructor | stockfishengine.cpp:11-18 | skill 10, neither ready nor initialised, no process |
| Stockfish.StockfishEngine.SendCommand | stockfishengine.cpp:301-308 | a command reaches the process only while it runs |
| Stockfish.StockfishEngine.SetSkillLevel | stockfishengine.cpp:114-134 | the skill becomes `qBound(0, level, 20)` whether or not the process runs; a running process receives the skill options |
| Stockfish.StockfishEngine.StartEngine | stockfishengine.cpp:88-107 | a successful start sends "uci", the skill options and "isready" and makes the engine ready and initialised |
| Stockfish.StockfishEngine.SendQuery | stockfishengine.cpp:262-270 | while the process runs, exactly the position FEN and "go movetime" with the skill's think time are sent; nothing else changes |
| Stockfish.StockfishEngine.ReadReply | stockfishengine.cpp:273-298 | stores the token after the first "bestmove", signals it unless missing or "(none)", reports an empty response, and returns `ReplyMove` |
| Stockfish.StockfishEngine.GetBestMove | stockfishengine.cpp:253-299 | a failed start answers no move and changes nothing; otherwise the position and the timed search are sent and the answer is `ReplyMove` of the response |
| Uci.PositionToUci | uciengine.cpp:149-155 | a square name has two characters |
| Uci.UciToPosition | uciengine.cpp:157-166 | input shorter than two characters gives (-1, -1) |
| Uci.PositionRoundTrip | uciengine.cpp:149-166 | for coordinates in 0..7 the name is a file a..h and a rank 1..8 and decodes back to `QPoint(row, col)` |
| Uci.SquareNameRoundTrip | uciengine.cpp:149-166 | every square name decodes to a board square whose name it is |
| Uci.BestMoveReport | uciengine.cpp:117-126 | a report comes only from a line starting with "bestmove", as two two-character parts |
| Uci.SplitHead | uciengine.cpp:118 | a space-free word followed by nothing or a space is the first part of the split |
| Uci.BestMoveLine | uciengine.cpp:117-126 | "bestmove <move>" reports the move's characters 0-1 and 2-3 exactly when it has at least four characters |
| Uci.BestMoveDecodes | uciengine.cpp:117-166 | a reported pair of square names decodes to the two squares |
| Uci.UciFenFields | uciengine.cpp:168-230 | the FEN splits into the rows 7..0 placement, "w"/"b", "KQkq", "-", "0" and "1" |
| Uci.UciEngine.constructor | uciengine.cpp:6-12 | no process, not ready, skill 10 |
| Uci.UciEngine.SendCommand | uciengine.cpp:89-96 | a command reaches the process only while it runs |
| Uci.UciEngine.Initialize | uciengine.cpp:23-54 | on failure an error is signalled and nothing is sent; on success "uci", the skill option and "isready" are sent |
| Uci.UciEngine.SetSkillLevel | uciengine.cpp:56-65 | the skill becomes `qBound(0, level, 20)`; a running process receives the option and "isready" |
| Uci.UciEngine.ProcessLine | uciengine.cpp:106-128 | readiness becomes true exactly on "readyok" and is never reset; a "bestmove" line is reported as `BestMoveReport` says |
| Uci.UciEngine.GetBestMove | uciengine.cpp:67-80 | without a running, ready engine an error is signalled and nothing is sent; otherwise the position and "go movetime 1000" are sent |
| Uci.BoardToFen | uciengine.cpp:168-230 | the method writes exactly the FEN with rows 7 to 0, "KQkq", "-" and "0 1" |

## Left out

- Process and engine I/O is not modelled: starting processes, `waitForStarted`, `waitForResponse`, `onReadyRead`, `onErrorOccurred`, `shutdown`, `stop`, `findStockfishPath`, destructors and signals other than as logs. The outcome of starting a process and the collected engine output are parameters instead (`started`, `initOk`, `response`).
- Stockfish.StockfishEngine.GetBestMove: a failed `initialize` is modelled as changing nothing. The source may already have sent "uci" or the skill options, or signalled an error, before failing.
- Stockfish.StockfishEngine.StartEngine: models only the successful path of `initialize`, with the "uciok" and "readyok" waits assumed to succeed.
- `getRandomMove` is not modelled, because it depends on a random generator.
- `minimax` and `getMinimaxMove` are not modelled, because they rely on `ChessBoard::undo`, whose body is not part of this model.
- `setUseStockfish`, `getStockfishMove` and the difficulty dispatch of `ChessAI::getBestMove` are not modelled: they only hand the board to the engine wrappers.
- `undo`, `getBoardStateAtMove`, `isInsufficientMaterial`, `wouldBePromotion` and `setGameOver` are declared in chessboard.h without bodies, and are not part of this model.
- Widgets, dialogs, settings, translations, glyph rendering and the test and debug drivers are not modelled.
- Heap management is not modelled. Pieces are values, so `new`/`delete` become overwrites, and the pointer aliasing of `wouldBeInCheck`'s shallow copy does not arise.
- Board.ChessBoard.PerformCastling: a missing king or rook (a null dereference in the source) is modelled as moving the empty square.
- `QString::arg`, `QString::number` and `toLatin1` are modelled on characters below 256. UTF-16 code units above that are not distinguished.
- `QString::number` is modelled only for natural numbers; it is only applied to counts, skill levels and Elo values.
