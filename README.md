# wuki-chess kernel in Dafny

A model of the chess kernel of wuki-chess: coordinate helpers, colours and squares, the
board built from a list of pieces, the six kinds of piece with their geometric move
patterns, the game (initial setup, move notation, the move parser, making and undoing
moves, replaying a list of moves, the game state) and the computer player that rates
every move by the position it leads to.

Modules, one per source file:

| module | file | source |
|---|---|---|
| `Errors` | errors.dfy | the exceptions the kernel raises, as values (`Result`, `Option`, `Error`) |
| `Builtins` | builtins.dfy | the Python built-ins the kernel relies on (`str.index`, `int`, `str.upper`, `filter`, `str.split`) |
| `Helpers` | helpers.dfy | wuki/helpers.py |
| `Geometry` | board.dfy | `Color`, `Square` and `within_board` of wuki/board.py |
| `Boards` | positions.dfy | `Board` of wuki/board.py, and the board operations other files call |
| `Pieces` | piece.dfy | wuki/piece.py |
| `Notation` | notation.dfy | move text of wuki/game.py: `move_str`, `__str__`, `parse_move` |
| `Games` | game.dfy | the rest of wuki/game.py: setup, `make_move`, `undo`, `check_state`, class `Game` |
| `Ai` | ai.dfy | wuki/ai.py |

Python exceptions are results: `Err(ValueError)`, `Err(KeyError)`, `Err(MoveParse(..))`
and so on. A square is the pair of integers the source stores; the arguments Python
accepts for building one (integers, one-letter strings, tuples, other squares) are the
`Value` datatype. The board operations that game.py and ai.py call but board.py does not
define (applying a move, the moves of a colour, the captured pieces, check, checkmate,
stalemate) are the fields of an `Engine` value that every operation needing them takes
as a parameter; nothing is assumed about them. Two more lookups that board.py does not
define, `board[square]` and the call `board.pieces(kind, color)`, are given their evident
meaning (`Boards.PieceAt`, `Boards.PiecesOf`; see "Left out"). The `Game` and `WukiAI` classes are Dafny
classes whose methods update the same fields as the source and are proved against the
functions on histories and boards that the lemmas are about.

## Model

| member | source | states |
|---|---|---|
| Helpers.ColorStr | wuki/helpers.py:6-8 | 'w' exactly for WHITE (0) and 'b' for every other value |
| Helpers.FileIndex | wuki/helpers.py:16 | `"abcdefgh".index` of the i-th file letter is i |
| Helpers.Coord | wuki/helpers.py:14-18 | a one-character column succeeds exactly when it is a file letter a-h, and every failure is a ValueError; x lies on the board and y is the row minus one |
| Helpers.FileLookup | wuki/helpers.py:16 | `"abcdefgh".index(col)` finds a position on the board, and a single character is found exactly when it is a file letter |
| Helpers.FileAt | wuki/helpers.py:23 | indexing "abcdefgh" succeeds exactly for -8 <= x < 8 and yields a file letter; for 0 <= x < 8 it is the x-th letter |
| Helpers.SquareOf | wuki/helpers.py:20-25 | succeeds exactly for -8 <= x < 8; the rank is y plus one |
| Helpers.SquareColor | wuki/helpers.py:27-29 | the result is 0 or 1, and 1 exactly when x + y is even |
| Helpers.CoordThenSquare | wuki/helpers.py:14-25 | `square(coord(c, r)) == (c, r)` for every file letter and every row |
| Helpers.SquareThenCoord | wuki/helpers.py:14-25 | `coord(*square(p)) == p` exactly when 0 <= x < 8 |
| Helpers.SquareColorAlternates | wuki/helpers.py:27-29 | (0, 0) is black, and one step along x or along y flips the colour |
| Helpers.WithinBoardRoundTrip | wuki/helpers.py:10-25 | every on-board position survives `square` then `coord` |
| Geometry.Color.Code | wuki/board.py:6-30 | the code is 0 exactly for White and 1 exactly for Black |
| Geometry.Color.Invert | wuki/board.py:22-24 | `~` gives a different colour, whose code is 1 minus the code |
| Geometry.Color.HomeY | wuki/game.py:142 | the home row lies on the board and is row 0 exactly for White |
| Geometry.InvertInvolutive | wuki/board.py:22-30 | White and Black are each other's inverse and differ, and inverting twice gives the colour back |
| Geometry.MakeSquare | wuki/board.py:36-74 | a square argument is copied, and every failure is a ValueError |
| Geometry.TupleFormAgrees | wuki/board.py:59-62 | a 2-tuple and the same two separate arguments build the same square |
| Geometry.NotationForm | wuki/board.py:69-72 | (file, rank) builds the on-board square of that file and rank, exactly for the letters a-h |
| Geometry.MalformedSquare | wuki/board.py:59-74 | a missing y without a 2-tuple, or a non-letter string, is a ValueError |
| Geometry.Square.FileRank | wuki/board.py:98-104 | succeeds exactly for -8 <= x < 8 (IndexError otherwise); the file is the letter at x, the rank y + 1 |
| Geometry.Square.Name | wuki/board.py:79-80 | the name exists exactly for -8 <= x < 8 (IndexError otherwise) and is a file letter followed by the decimal digits of y + 1 |
| Geometry.FileRankRoundTrip | wuki/board.py:79-104 | building a square from its own file and rank gives it back, and its name is file letter and rank digit, for every on-board square |
| Geometry.WithinBoardOf | wuki/board.py:132-133 | for a square argument the module-level test is that square's bounds test; every failure is the constructor's ValueError |
| Geometry.Equals | wuki/board.py:85-90 | a square equals another square or a 2-tuple exactly when the coordinates agree; any other operand is a TypeError |
| Geometry.EqualsPair | wuki/board.py:85-90 | comparing with a tuple of integers is comparing with the square it builds |
| Geometry.Add | wuki/board.py:92-96 | adding a 2-tuple of integers shifts the coordinates; other lengths are a TypeError |
| Geometry.AddOffsets | wuki/board.py:92-96 | adding an offset and then its negation gives the square back, and two additions equal one addition of the summed offsets |
| Geometry.Square.SquareColor | wuki/board.py:114-116 | a square is black exactly when x + y is even |
| Geometry.SquareColors | wuki/board.py:114-116 | a1 and h8 are black and b1 white, neighbours along a file or a rank alternate, and the colour agrees with helpers' `square_color` |
| Geometry.DiagonalsExact | wuki/board.py:118-124 | the diagonal set holds exactly the on-board squares at equal x and y distance below 8, the square itself included |
| Geometry.OrthogonalsExact | wuki/board.py:126-130 | the orthogonal set holds exactly the squares of the row at x 0-7 and of the column at y 0-7; for an on-board square, the on-board squares sharing its row or column |
| Geometry.OrthogonalsCount | wuki/board.py:126-130 | an on-board square has 15 orthogonals |
| Geometry.RowCount | wuki/board.py:128 | the horizontal line holds 8 squares |
| Geometry.ColumnCount | wuki/board.py:129 | the vertical line holds 8 squares |
| Boards.IndexOf | wuki/board.py:149-151 | the index's keys are exactly the pieces' positions, each mapped to a piece of the list standing there |
| Boards.IndexLastWriter | wuki/board.py:149-151 | a square maps to a piece of the list at that square after which no piece stands there |
| Boards.IndexDistinct | wuki/board.py:143-151 | with distinct positions every piece is indexed under its own square |
| Boards.NewBoard | wuki/board.py:143-151 | the constructor's loop builds exactly the index `IndexOf` describes and keeps the piece list |
| Boards.PieceAt | wuki/game.py:173 | `board[square]` succeeds exactly for an indexed square, KeyError otherwise; on a valid board it is a piece of the list standing there |
| Boards.PiecesOf | wuki/game.py:175 | `board.pieces(kind, color)` keeps exactly the pieces of that kind and colour, in order, and keeps positions distinct |
| Boards.FilterKeepsDistinctPositions | wuki/game.py:177-181 | filtering a piece list keeps its positions distinct |
| Boards.PieceMoves | wuki/piece.py:59-60 | from an on-board square the pattern stays on the board and never holds the piece's own square |
| Boards.PawnCapture | wuki/piece.py:183-185 | a pawn moves diagonally forward exactly onto a square holding a piece of the other colour |
| Pieces.Kind.Letter | wuki/piece.py:67-160 | every kind's letter is one of K, Q, R, B, N, P |
| Pieces.NamesAndLetters | wuki/piece.py:67-160 | two kinds have the same name exactly when they have the same letter, exactly when they are equal or both pawns |
| Pieces.Piece.Letter | wuki/piece.py:32-33 | the upper case of the letter is the kind's letter; White's is upper case and Black's lower case |
| Pieces.KindEquals | wuki/piece.py:14-18 | kinds compare equal exactly when the names agree, including against a placed piece's kind |
| Pieces.PieceEquals | wuki/piece.py:47-57 | a placed piece equals a kind, or another placed piece, by kind name (and, for pieces, colour and square) |
| Pieces.PieceEqualsIsEquality | wuki/piece.py:47-57 | on consistent pieces the comparison is equality of the values |
| Pieces.NewPiece | wuki/piece.py:28-39 | a new piece carries the given kind, colour and square, a non-Square position first converted as `Square(position)` does; a malformed or off-board position is a ValueError |
| Pieces.NewPieceFromPair | wuki/piece.py:35-39 | a piece built from an integer pair exists exactly when the pair is on the board, and then stands on that square |
| Pieces.MoveTo | wuki/piece.py:62-64 | moving a piece changes only its square, to the target or to `Square(target)` for a non-Square target; a malformed or off-board target is a ValueError |
| Pieces.KingMovesExact | wuki/piece.py:75-88 | the King reaches exactly the on-board squares at king distance 1 |
| Pieces.KingMovesAre | wuki/piece.py:80-88 | the King's set is the set of the eight neighbours that lie on the board |
| Pieces.KingMovesCentre | wuki/piece.py:75-88 | a King on e5 has 8 moves |
| Pieces.KingMovesEdgeSquares | wuki/piece.py:75-88 | a King on a5 reaches exactly b5, a6, a4, b6, b4 |
| Pieces.KingMovesEdge | wuki/piece.py:75-88 | a King on a5 has 5 moves |
| Pieces.KingMovesCorner | wuki/piece.py:75-88 | a King on h8 has 3 moves |
| Pieces.KnightMovesExact | wuki/piece.py:139-145 | the Knight reaches exactly the on-board squares one step along one axis and two along the other; the list has at most 8 entries and no repeats |
| Pieces.PawnMovesExact | wuki/piece.py:162-186 | a pawn steps forward one square, two from its starting row, and diagonally forward onto an opposing piece; nothing from the opponent's home row |
| Pieces.PatternStaysOnBoard | wuki/piece.py:75-186 | every pattern from an on-board square stays on the board and leaves the piece's own square |
| Pieces.SlidingPatterns | wuki/piece.py:91-128 | the Bishop moves along diagonals, the Rook along orthogonals, and the Queen along both, always excluding the start square |
| Notation.MoveStr | wuki/game.py:75-91 | a King moving two files left is "0-0-0", two files right is "0-0"; any other move is source square, upper-case letter and target square |
| Notation.NameIsToken | wuki/board.py:79-80 | the name of an on-board square is a file letter and a rank digit |
| Notation.MoveStrToken | wuki/game.py:75-91 | every move string is non-empty and holds no blank and no line break |
| Notation.MoveStrOrdinary | wuki/game.py:91 | outside castling the string is the five characters square, letter, square |
| Notation.NameOnBoard | wuki/board.py:79-104 | the name of an on-board square is the file letter at x and the digit y + 1 |
| Notation.MoveStrSquares | wuki/game.py:91 | the source and target squares can be read back from the string |
| Notation.MoveStrs | wuki/game.py:95 | one string per move, each the string of that move; the list fails (IndexError) exactly when some move cannot be named |
| Notation.Rounds | wuki/game.py:98-103 | there are rounds exactly when there are moves, and no round holds a line break when no move string does |
| Notation.SplitJoin | wuki/game.py:104 | splitting a newline-joined list of lines gives the lines back |
| Notation.RoundWords | wuki/game.py:100-102 | a round splits into its one or two move strings |
| Notation.SingleWords | wuki/game.py:100 | a round of one move string is that one word |
| Notation.EmptyWords | wuki/game.py:104 | the empty trailing line holds no word |
| Notation.WordsCons | wuki/game.py:98-104 | the words of a list of rounds are the words of the first round followed by the rest |
| Notation.WordsOfRounds | wuki/game.py:98-104 | the words of all rounds are the move strings in order |
| Notation.RenderTokens | wuki/game.py:93-104 | reading the game text back, line by line and word by word, yields exactly the move strings in order |
| Notation.Head | wuki/game.py:158-163 | an optional group consumes one character exactly when it matches the group |
| Notation.Lex | wuki/game.py:158-167 | matching the grammar yields a well-formed notation, or None when the text does not match |
| Notation.Assemble | wuki/game.py:158-163 | the parts of a notation concatenated in grammar order give its text |
| Notation.LexUnlex | wuki/game.py:158-167 | lexing the text of every well-formed notation gives that notation back |
| Notation.FileNumber | wuki/board.py:71 | the file letter's index in "abcdefgh" |
| Notation.NotationSquare | wuki/game.py:169 | a file letter and rank digit build, through the square constructor, the on-board square whose name they are |
| Notation.KindOfLetter | wuki/game.py:175 | a letter of either case names a kind exactly when its upper case is one of KQRBNP; anything else is a KeyError |
| Notation.Candidates | wuki/game.py:174-182 | the candidates are exactly the mover's pieces of the kind that can reach the target and stand on the hinted file and rank; distinct pieces stay distinct |
| Notation.HintFilterAsWritten | wuki/game.py:174-181 | as written, a file or rank hint is an AttributeError exactly when some piece of the mover reaches the target; otherwise the result is the candidate list |
| Notation.NoReachNoCandidates | wuki/game.py:174-181 | when no piece reaches the target, no hinted piece does |
| Notation.ParseCastling | wuki/game.py:141-155 | castling takes the piece on the e-file of the home row (KeyError when empty) to the g-file for "0-0" or the c-file for "0-0-0", if its pattern holds that square |
| Notation.Target | wuki/game.py:169 | the target of a matched move is on the board |
| Notation.Checked | wuki/game.py:188-193 | the parsed piece is accepted exactly when its letter is the requested one and its colour the player's; otherwise MoveParse |
| Notation.ParseMove | wuki/game.py:110-193 | text that does not match is "Wrong move format"; a parsed move outside castling belongs to the player, carries the requested letter, and targets an on-board square |
| Notation.ParseSteps | wuki/game.py:164-193 | outside castling, parsing is lexing, resolving the source, and the closing checks |
| Notation.NoDashNoCastle | wuki/game.py:141 | text without a dash never takes the castling branch |
| Notation.SourceSquare | wuki/game.py:172 | a full source square in the text names an on-board square |
| Notation.ParseDirect | wuki/game.py:170-173 | with a full source square the parser moves whatever stands on that square, KeyError if it is empty |
| Notation.PieceIdNamesKind | wuki/game.py:168-175 | a requested letter always names a kind |
| Notation.SourceInferred | wuki/game.py:174-187 | without a full source square the source is the single candidate, AmbiguousMove otherwise |
| Notation.ParseInferred | wuki/game.py:174-193 | zero or several candidates are an AmbiguousMove; exactly one candidate is returned with the target |
| Notation.ParseInferredUnique | wuki/game.py:174-187 | a successful inferred parse returns the only piece of the mover that has the named kind, reaches the target and stands on the hinted file and rank |
| Notation.SingleCandidate | wuki/game.py:174-185 | a single candidate is the only piece that fits the requested kind, colour, target and hints |
| Notation.FileLetters | wuki/game.py:158 | each file letter is in the grammar's file class |
| Notation.RankDigits | wuki/game.py:159 | each rank digit is in the grammar's rank class |
| Notation.MoveNotation | wuki/game.py:91 | the notation of a move string outside castling is well formed |
| Notation.MoveStrUnlex | wuki/game.py:91-163 | that notation's text is the move string |
| Notation.UnlexNotCastling | wuki/game.py:141 | a move string outside castling never takes the castling branch |
| Notation.MoveStrLexes | wuki/game.py:91-167 | lexing a move string gives its notation back |
| Notation.MoveStrParses | wuki/game.py:75-193 | the string of every move between on-board squares other than a two-file King step parses back to the same move, on any board whose index holds that piece on its square |
| Notation.CastlingTokens | wuki/game.py:141-150 | "0-0" and "0-0-0" take the castling branch |
| Notation.CastlingRejected | wuki/game.py:141-155 | castling to a square outside the piece's pattern is the MoveParse "Castling not possible" |
| Notation.CastlingMalformed | wuki/game.py:141-151 | every text holding "0-" other than "0-0" and "0-0-0", "0-1" among them, is a KeyError when the e-file home square is empty and otherwise leaves the target unbound (UnboundLocalError) |
| Notation.LexOwnText | wuki/game.py:158-167 | the text of a well-formed notation lexes to it and is not taken for castling |
| Notation.KnightReaches | wuki/piece.py:139-145 | a knight reaches every on-board square a knight's jump away |
| Notation.OnFileLetter | wuki/game.py:178-179 | a piece stands on the hinted file exactly when its file letter is the hint |
| Notation.KnightToE5 | wuki/game.py:168-175 | "Ne5" targets e5 and asks for a knight |
| Notation.AmbiguousKnights | wuki/game.py:184-187 | "Ne5" with two knights able to reach e5 is an AmbiguousMove |
| Notation.BothKnightsCandidates | wuki/game.py:174-185 | both knights are candidates for "Ne5", so there is not exactly one |
| Notation.SingledOut | wuki/game.py:174-182 | when the hints exclude every other piece, the candidates are exactly the one fitting piece |
| Notation.TwoKnightsDistinct | wuki/game.py:177 | the knights on f7 and d3 are different pieces and the only ones on the example board |
| Notation.FileHintSingles | wuki/game.py:178-179 | the hint 'f' keeps the knight on f7 and excludes the other |
| Notation.RankHintSingles | wuki/game.py:180-181 | the hint '3' keeps the knight on d3 and excludes the other |
| Notation.FileHintCandidates | wuki/game.py:174-182 | "fNe5" leaves the f-file knight as the only candidate |
| Notation.RankHintCandidates | wuki/game.py:174-182 | "3Ne5" leaves the third-rank knight as the only candidate |
| Notation.FileHintKnights | wuki/game.py:178-179 | "fNe5" moves the f-file knight to e5 |
| Notation.HintedKnightsAsWritten | wuki/game.py:174-181 | on the two-knight board the hint filters as written raise AttributeError for the hints of "fNe5" and "3Ne5", although each hint leaves exactly one intended candidate |
| Notation.RankHintKnights | wuki/game.py:180-181 | "3Ne5" moves the knight on the third rank to e5 |
| Games.BackFilesAgree | wuki/game.py:44-51 | the back-row listing and the file-by-file kinds describe the same row |
| Games.BackRowStandard | wuki/game.py:42-52 | each colour's back row has 8 pieces, every one the standard piece of its square, and covers every square of the home row |
| Games.PawnRowStandard | wuki/game.py:53 | each colour's pawn row has 8 pieces, every one the standard piece of its square, and covers every square of that row |
| Games.InitialPiecesStandard | wuki/game.py:41-53 | the setup lists 32 pieces, exactly the pieces of the standard position |
| Games.InitialBoard | wuki/game.py:41-58 | the first board indexes exactly the squares of the standard position, each with its standard piece |
| Games.Length | wuki/game.py:106-108 | the length is the number of moves, one fewer than the boards in a valid history |
| Games.CutStart | wuki/game.py:231-232 | `del xs[-n:]` keeps len - n items for 0 < n <= len and none for n = 0 or n > len |
| Games.UndoZeroClears | wuki/game.py:225-233 | as written, `undo(0)` deletes every board and every move and leaves an invalid history |
| Games.UndoneSteps | wuki/game.py:225-233 | the intended undo drops the last n boards and moves and flips the player when n is odd, does nothing outside 1 <= n <= moves, and keeps the history valid |
| Games.UndoAfterMove | wuki/game.py:221-233 | undoing one move after playing it restores the history |
| Games.UndoCompose | wuki/game.py:225-233 | undoing m then n moves equals undoing m + n |
| Games.Current | wuki/game.py:221 | the current board is the last one, IndexError without any |
| Games.ParseInGame | wuki/game.py:135-157 | without a board it is an IndexError (outside castling even with one); a parsed move outside castling belongs to the given or current player and targets the board |
| Games.ParseInGameDefaults | wuki/game.py:135-138 | with the defaults, parsing in the game parses on the last board for the player to move |
| Games.Resolve | wuki/game.py:209-213 | a piece with a target is taken as given; no text and no target is a ValueError; a target with anything but a piece fails reading its colour |
| Games.PlayMove | wuki/game.py:213-223 | a piece of the wrong colour is WrongPlayer; otherwise the move is applied to the last board, one board and one move are appended and the turn passes |
| Games.PlayThenUndo | wuki/game.py:213-233 | undoing a just-played move restores the history |
| Games.PlayAppends | wuki/game.py:195-223 | a successful `make_move` plays the resolved move, keeps the history valid and passes the turn |
| Games.PlayedStep | wuki/game.py:69-70 | replaying moves makes the first one, then the rest, stopping at the first failure |
| Games.PlayedExtends | wuki/game.py:69-70 | replaying keeps earlier moves as a prefix and adds at most one move per text |
| Games.ParityStep | wuki/game.py:233 | one item fewer flips the parity |
| Games.PlayedAll | wuki/game.py:69-70 | when every text is made, one move per text is added and the turn passes once per text |
| Games.PlayedStops | wuki/game.py:69-70 | when a text fails, fewer moves than texts are added |
| Games.CheckState | wuki/game.py:246-271 | stalemate first ("stalemate w"/"stalemate b"), then checkmate naming the player, then check; IndexError without a board |
| Games.Game.constructor | wuki/game.py:41-68 | a new game holds one board of the standard pieces, no move, and White to move |
| Games.Game.Length | wuki/game.py:106-108 | `len(game)` is the number of moves, one fewer than the boards |
| Games.Game.MovePiece | wuki/game.py:213-223 | the fields become exactly the history `PlayMove` computes, or stay unchanged on an error |
| Games.Game.MakeMove | wuki/game.py:195-223 | the fields become the history `Play` computes, or stay unchanged on an error |
| Games.Game.Replay | wuki/game.py:69-70 | the loop over the texts leaves the history `Played` describes |
| Games.Game.Undo | wuki/game.py:225-233 | the fields become the history `Undone` computes |
| Games.Game.ToString | wuki/game.py:93-104 | the text is the rendered rounds of the move strings, and reading it back yields exactly the move strings in order; IndexError when a move cannot be named |
| Games.PairUp | wuki/game.py:98-103 | the loop stepping by two yields exactly the rounds: each pair of moves joined by a blank, a last odd move alone |
| Ai.LetterValue | wuki/ai.py:5-12 | Q 9, R 5, B 3, N 3, P 1; exactly the King has no value; only the pawn is worth 1 |
| Ai.KindValues | wuki/ai.py:5-12 | only the King has no value, a pawn is worth 1 in either colour, Q > R > B and B = N |
| Ai.MaterialOne | wuki/ai.py:63-64 | the material of one piece is its value |
| Ai.MaterialAppend | wuki/ai.py:63-64 | the material of two lists is the sum of their materials |
| Ai.MaterialCounts | wuki/ai.py:62-64 | without a King the material is 9 per queen, 5 per rook, 3 per bishop or knight and 1 per pawn |
| Ai.MaterialDefined | wuki/ai.py:64 | the material exists exactly when the list holds no King |
| Ai.MaterialStep | wuki/ai.py:63-64 | one more piece adds its value |
| Ai.MaterialPrefixUndefined | wuki/ai.py:63-64 | once a prefix holds a King the whole material is undefined |
| Ai.CapturedScore | wuki/ai.py:56-65 | the only failure of the captured-material term is the KeyError of a captured King |
| Ai.CapturedScoreClosedForm | wuki/ai.py:56-65 | the term exists exactly when neither list holds a King, and is 10 times (9Q + 5R + 3B + 3N + P) of the opponent's lost pieces minus the same of the player's |
| Ai.CapturedScoreStep | wuki/ai.py:62-64 | each further captured opponent piece adds ten times its value, each further own loss subtracts it |
| Ai.EqualMaterialCancels | wuki/ai.py:56-65 | equal losses of every kind on both sides score 0 |
| Ai.CenterWeightExact | wuki/ai.py:73-83 | 3 points on d4-e5, 1 point on the ring c3-f6 around it, 0 elsewhere |
| Ai.CenterScoreAppend | wuki/ai.py:79-84 | the centre score of two lists is the sum of their scores |
| Ai.CenterScoreWithin | wuki/ai.py:79-84 | pieces on distinct squares score at most 3 per core square and 1 per ring square they occupy |
| Ai.CenterScoreBound | wuki/ai.py:67-84 | pieces on distinct squares score between 0 and 24 |
| Ai.CenterScoreExamples | wuki/ai.py:67-84 | kings on e1 and e8 score 0; a queen on d4 adds 3 and a queen on d6 adds 1 more |
| Ai.Evaluation | wuki/ai.py:41-54 | exists exactly when the captured-material term does; on a board with distinct squares it lies between that term and that term plus 24 |
| Ai.Ratings | wuki/ai.py:32-36 | one score per move |
| Ai.RatingsAt | wuki/ai.py:32-36 | each score is the rating of the move at its place; the scores exist exactly when every move can be rated |
| Ai.RatingsPrefixFails | wuki/ai.py:33-35 | the first move that cannot be rated fails the whole list with its error |
| Ai.RatingsStep | wuki/ai.py:33-36 | rating one more move either fails with that move's error or appends its score |
| Ai.WukiAI.constructor | wuki/ai.py:14-15 | the player keeps its colour |
| Ai.WukiAI.Tally | wuki/ai.py:63-64 | adding ten times each piece's value with the given sign gives the running score plus sign times ten times the material; KeyError on a King |
| Ai.WukiAI.EvalCaptured | wuki/ai.py:56-65 | the two loops compute exactly `CapturedScore` of the player's and the opponent's captured pieces |
| Ai.WukiAI.EvalCenter | wuki/ai.py:67-84 | the loop computes exactly `CenterScore` of the player's pieces, between 0 and 24 on a board with distinct squares |
| Ai.WukiAI.EvaluateBoard | wuki/ai.py:41-54 | the result is exactly `Evaluation` for the player's colour |
| Ai.WukiAI.RateMoves | wuki/ai.py:32-36 | the loop over the moves computes exactly `Ratings` of the moves, stopping at the first rating error |
| Ai.WukiAI.FirstBest | wuki/ai.py:38 | the chosen index holds a maximal score and every earlier score is strictly smaller, as `max` keeps the first maximum |
| Ai.WukiAI.GetMove | wuki/ai.py:17-39 | a rating error is passed on; no move is a ValueError; otherwise the result is the first move whose score is the maximum of all scores |

## Left out

- Printing and text output: `Board.print`, `Game.print_board`, every `__repr__`, the `print` call in `parse_move`, and `Board.__str__`.
- The command-line and graphical front ends (cli.py, gui.py) and the package files are not part of this model. Reading a match file is modelled only as `Builtins.Split`.
- `Boards.Engine`: board.py does not define `make_move`, `possible_moves(color)`, `captured`, `is_check`, `is_checkmate` or `is_stalemate`, although game.py and ai.py call them. They are parameters, and nothing is proved about what they do: legality, blocking, castling's rook move, promotion and en passant belong to them. `Engine.apply` stands for both calls of `make_move`, `make_move(piece, target)` in game.py:221 and `make_move(*move, color=self.color)` in ai.py:34; it takes no colour, so the `color=` keyword of the computer player's call is dropped.
- `Geometry.Color.HomeY`: game.py reads `home_y`, which `Color` does not define. The model takes the home rows 0 and 7.
- `Notation.KindOfLetter`: game.py reads `piece.piece_by_letter`, which piece.py does not define. The model maps the six letters of either case to their kinds.
- `Notation.ParseMove`: as written every text outside castling fails at game.py:157 with a TypeError, because `self.boards[0].pieces()` calls a list; the "Wrong move format" path and everything after it are reached only with the intended letter class of `Notation.Lex`, which the model uses.
- `Notation.Lex`: the source builds the piece-letter class from `self.boards[0].pieces()`, which is a list and cannot be called, and interpolates a Python set's text into the class. The model uses the intended class of the six upper-case letters, and it matches the whole text rather than a prefix.
- `Pieces.SlidingPatterns`: piece.py calls `diagonals` and `orthogonals` without importing them, and the Rook's pattern is the `None` that `set.discard` returns. Bishop, Rook and Queen are modelled as their docstrings describe: lines through the square, without the square itself.
- `Boards.PawnCapture`: the pawn's capture test asks whether a square is `in board` and reads `.color` from the square. As written `in board` is itself a TypeError, because board.py defines no `__contains__`, `__iter__` or `__getitem__` (lines 138-141 only list them as TODOs), and the default `board=None` fails the same way; so every pawn's `possible_moves` raises TypeError unless the pawn stands on the opponent's home row (piece.py:176-177), where it returns before the filter at piece.py:184, and so does the inferred pawn move at game.py:177. The model reads the colour of the piece the board's index holds there.
- `Ai.LetterValue`: the pieces define `__eq__` without `__hash__`, so they cannot be dictionary keys and `piece_value` cannot be built. Values are looked up by kind letter; kinds compare by name, so this is the intended lookup.
- `Ai.WukiAI.GetMove`: the `move_rating` dictionary is keyed by unhashable moves as well. The model keeps the ratings in a list in move order. For a list that repeats a move, the dictionary would keep the last score of that move; the model rates each occurrence. The `color` argument is ignored, exactly as in the source.
- `Ai.WukiAI.EvaluateBoard`: the `possible_moves` result that every `eval_` method receives and ignores is not computed. The evaluators are called as the two terms `dir()` finds, `eval_captured` then `eval_center`.
- `Ai.WukiAI.EvalCaptured`: the source tests the colour with `is`. The model compares colour values, which agrees with the source when the player's colour is one of the module's two colour objects.
- `Geometry.MakeSquare`: the `Value` datatype covers integers, strings, tuples and squares. Floats, booleans and other objects are not modelled.
- `Games.Game.Undo`: follows the evident intent of `undo(n)` (see Findings). As written, `undo(0)` empties both lists, and a negative n keeps a prefix; `Games.Truncated` models both.
- `Games.CheckState`: the exceptions `check_state` raises are returned as a `Status` value. The draw reasons other than stalemate are a to-do in the source and are absent here too.
- `Geometry.Color.Invert`: as written `~` builds a fresh `Color(1 - code)`, which is never the module's `White` or `Black` object, so an identity test such as `color is White` (piece.py:32 and 168, game.py:168) reads an inverted Black as black. The model's colours are values, so `Black.Invert()` is `White` everywhere; the identity tests are not modelled.
- `Boards.PieceAt`: `Board` has no `__getitem__`, so `board[square]` (game.py:143 and 173) is a TypeError in the source. The model reads the index, as the TODO comment at board.py:138 intends.
- `Boards.PiecesOf`: `board.pieces` is a list attribute, so `board.pieces(kind=..., color=...)` (game.py:175, ai.py:79) is a TypeError in the source. The model filters the list by kind name and colour.
- `Boards.PieceMoves`: `Piece.possible_moves` passes the piece's Square to the pattern, and the King's pattern reads `position[0]` and `position[1]` (piece.py:77-85), which a Square does not support. For a placed King the source therefore raises TypeError; the model uses the set the pattern yields for the pair of coordinates. This affects the castling test (game.py:152) and inferred King moves (game.py:177).
- `Notation.ParseCastling`: with a King on the e-file of the home row the source raises TypeError at the pattern test (game.py:152). The model tests the King's pattern instead.
- `Notation.CastlingRejected`: states the intended outcome, "Castling not possible", not the TypeError of a placed King's pattern. Even as intended, castling text can never parse, because the King's pattern holds no two-file step.
- `Notation.Candidates`: follows the evident intent of the hint filters. As written they raise AttributeError (see Findings); `Notation.HintFilterAsWritten` models that.
- `Notation.OnFileLetter`: the source compares the undefined attribute `p.position.file` (game.py:179), an AttributeError; the model uses the file letter of the square.
- `Notation.FileHintSingles`: relies on the intended file filter; as written the file hint raises AttributeError (game.py:179).
- `Notation.RankHintSingles`: relies on the intended rank filter; as written the rank hint raises AttributeError (game.py:181).
- `Notation.FileHintCandidates`: as written the file filter of "fNe5" raises AttributeError at game.py:179; the lemma states the intended candidates (`Notation.HintedKnightsAsWritten` states the as-written failure of the filter).
- `Notation.RankHintCandidates`: as written the rank filter of "3Ne5" raises AttributeError at game.py:181; the lemma states the intended candidates.
- `Notation.FileHintKnights`: as written "fNe5" fails with the TypeError at game.py:157, and with the letter class as intended it still fails at the file filter with AttributeError; the lemma proves the intended parse.
- `Notation.RankHintKnights`: as written "3Ne5" fails with the TypeError at game.py:157, and with the letter class as intended it still fails at the rank filter with AttributeError; the lemma proves the intended parse.
- `Square.coords`: it returns the pair of fields, which the model reads directly.

## Findings

| source | as written | input that shows it | evidently intended | confidence | as-written member | corrected member |
|---|---|---|---|---|---|---|
| wuki/game.py:230-233 | `del self.boards[-n:]` with n = 0 deletes the whole list, because `-0` is `0` | `undo(0)` on a game with one board and no move passes the guard and leaves no board and no move | `undo(0)` undoes nothing | high; not executed | Games.UndoZeroClears | Games.UndoneSteps |
| wuki/game.py:178-181 | the hint filters read `p.position.file` and `p.position.rank`, which a Square does not define, so any hint meeting a candidate raises AttributeError | with lines 157 and 175 working as intended (the model's `Notation.Lex` and `Notation.KindOfLetter`), "fNe5" or "3Ne5" with White knights on f7 and d3 reach the filters and raise AttributeError; as written the parse stops earlier, with the TypeError at game.py:157 | the hint keeps the pieces on the hinted file or rank, singling out one knight | high; not executed | Notation.HintedKnightsAsWritten | Notation.FileHintKnights |
