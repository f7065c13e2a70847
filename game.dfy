/**
  The game state machine of wuki/game.py: the standard setup, the history of boards and
  moves with the player to move, making a move from a piece or from move text, undoing
  moves, rendering the game, and the special-state test.

  The history is a value (`History`) with pure functions over it, and `Game` is the class
  whose fields the source updates in place; each of its methods is proved against the
  function of the old history that says what it computes.
 */
module Games {
  import opened Errors
  import opened Builtins
  import opened Geometry
  import opened Pieces
  import opened Boards
  import opened Notation
  import H = Helpers

  // ---------------------------------------------------------------------------
  // The standard setup
  // ---------------------------------------------------------------------------

  /** The kinds of a home row in the order the constructor lists them (files a, b, c, e, d, f, g, h). */
  const BackKinds: seq<Kind> := [Rook, Knight, Bishop, King, Queen, Bishop, Knight, Rook]

  /** The columns of those pieces, in the same order. */
  const BackFiles: seq<int> := [0, 1, 2, 4, 3, 5, 6, 7]

  /** The home-row pieces of one colour, as the constructor lists them. */
  function BackRow(c: Color): seq<Piece>
  {
    seq(8, i requires 0 <= i < 8 => Piece(BackKinds[i], c, Square(BackFiles[i], c.HomeY())))
  }

  /** The row of a colour's pawns: one row in front of its home row. */
  function PawnY(c: Color): int
  {
    c.HomeY() + Forward(c)
  }

  /** The pawns of one colour, files a to h. */
  function PawnRow(c: Color): seq<Piece>
  {
    seq(8, i => Piece(Pawn(c), c, Square(i, PawnY(c))))
  }

  /** The 32 pieces of a new game: white home row and pawns, then black home row and pawns. */
  function InitialPieces(): seq<Piece>
  {
    BackRow(White) + PawnRow(White) + BackRow(Black) + PawnRow(Black)
  }

  /** The kinds of the home row file by file, a to h: the usual chess order. */
  const FileKinds: seq<Kind> := [Rook, Knight, Bishop, Queen, King, Bishop, Knight, Rook]

  /**
    The standard opening position, square by square: white pieces on ranks 1 and 2, black
    pieces on ranks 8 and 7, pawns on the inner ranks, FileKinds on the outer ones.
   */
  function Standard(sq: Square): Option<Piece>
  {
    if !sq.WithinBoard() then None
    else if sq.y == 0 then Some(Piece(FileKinds[sq.x], White, sq))
    else if sq.y == 1 then Some(Piece(Pawn(White), White, sq))
    else if sq.y == 6 then Some(Piece(Pawn(Black), Black, sq))
    else if sq.y == 7 then Some(Piece(FileKinds[sq.x], Black, sq))
    else None
  }

  /** The constructor's listing order puts each home-row kind on its file. */
  lemma BackFilesAgree(i: int)
    requires 0 <= i < 8
    ensures 0 <= BackFiles[i] < 8 && FileKinds[BackFiles[i]] == BackKinds[i] && BackFiles[BackFiles[i]] == i
  {
    if i == 0 {} else if i == 1 {} else if i == 2 {} else if i == 3 {}
    else if i == 4 {} else if i == 5 {} else if i == 6 {} else {}
  }

  /** Every home-row piece stands where the standard position puts it, and every home-row square is covered. */
  lemma BackRowStandard(c: Color)
    ensures |BackRow(c)| == 8
    ensures forall p :: p in BackRow(c) ==> Standard(p.position) == Some(p)
    ensures forall x :: 0 <= x < 8 ==> Standard(Square(x, c.HomeY())).value in BackRow(c)
  {
    var r := BackRow(c);
    forall i | 0 <= i < 8 ensures Standard(r[i].position) == Some(r[i]) {
      BackFilesAgree(i);
      assert r[i] == Piece(BackKinds[i], c, Square(BackFiles[i], c.HomeY()));
      if c == White {
        assert c.HomeY() == 0;
      } else {
        assert c.HomeY() == 7;
      }
    }
    forall x | 0 <= x < 8 ensures Standard(Square(x, c.HomeY())).value in r {
      BackFilesAgree(x);
      BackFilesAgree(BackFiles[x]);
      assert r[BackFiles[x]] == Standard(Square(x, c.HomeY())).value;
    }
  }

  /** Every pawn stands where the standard position puts it, and every pawn square is covered. */
  lemma PawnRowStandard(c: Color)
    ensures |PawnRow(c)| == 8
    ensures forall p :: p in PawnRow(c) ==> Standard(p.position) == Some(p)
    ensures forall x :: 0 <= x < 8 ==> Standard(Square(x, PawnY(c))).value in PawnRow(c)
  {
    var r := PawnRow(c);
    forall x | 0 <= x < 8 ensures Standard(Square(x, PawnY(c))).value in r {
      assert r[x] == Standard(Square(x, PawnY(c))).value;
    }
  }

  /**
    The constructor's 32 pieces are exactly the standard position: each stands on the square
    the standard position assigns it, and each square the standard position fills holds one.
   */
  lemma InitialPiecesStandard()
    ensures |InitialPieces()| == 32
    ensures forall p :: p in InitialPieces() ==> Standard(p.position) == Some(p)
    ensures forall sq :: Standard(sq).Some? ==> Standard(sq).value in InitialPieces()
  {
    BackRowStandard(White);
    PawnRowStandard(White);
    BackRowStandard(Black);
    PawnRowStandard(Black);
    forall sq | Standard(sq).Some? ensures Standard(sq).value in InitialPieces() {
      if sq.y == 0 {
        assert sq == Square(sq.x, White.HomeY());
      } else if sq.y == 1 {
        assert sq == Square(sq.x, PawnY(White));
      } else if sq.y == 6 {
        assert sq == Square(sq.x, PawnY(Black));
      } else {
        assert sq == Square(sq.x, Black.HomeY());
      }
    }
  }

  /** The board of a new game holds a piece exactly on the standard squares, and it is the standard piece. */
  lemma InitialBoard(b: Board)
    requires b.pieces == InitialPieces() && b.Valid()
    ensures forall sq :: sq in b.index <==> Standard(sq).Some?
    ensures forall sq :: sq in b.index ==> b.index[sq] == Standard(sq).value
  {
    InitialPiecesStandard();
    forall sq ensures sq in b.index <==> Standard(sq).Some? {
      if Standard(sq).Some? {
        assert Standard(sq).value.position == sq;
      }
      if sq in b.index {
        assert b.index[sq] in InitialPieces();
      }
    }
  }

  // ---------------------------------------------------------------------------
  // The history
  // ---------------------------------------------------------------------------

  /** The state of a game: every board in order, every move in order, and the player to move. */
  datatype History = History(boards: seq<Board>, moves: seq<Move>, player: Color) {
    /** One board before the first move and one after each move. */
    predicate Valid()
    {
      |boards| == |moves| + 1
    }
  }

  /** The history after one more move: the new board and the move appended, the turn passed. */
  function Appended(h: History, m: Move, b: Board): History
  {
    History(h.boards + [b], h.moves + [m], h.player.Invert())
  }

  /** `len(game)`: the number of moves played, one fewer than the boards of a valid history. */
  function Length(h: History): (n: nat)
    ensures h.Valid() ==> n == |h.boards| - 1
  {
    |h.moves|
  }

  /**
    Where `del xs[-n:]` cuts a list of length `len`: `len - n` for `0 < n <= len`, nothing
    left for `n > len`, and, because `-0 == 0`, the whole list for `n == 0`. A negative `n`
    keeps the first `-n` elements.
   */
  function CutStart(len: nat, n: int): (k: nat)
    ensures k <= len
    ensures 0 < n <= len ==> k == len - n
    ensures n == 0 || n > len ==> k == 0
  {
    if n > 0 then (if n <= len then len - n else 0)
    else if n == 0 then 0
    else if -n <= len then -n else len
  }

  /**
    `undo(n)` as written: when there are more than `n` boards and more than `n - 1` moves,
    drop the slice `[-n:]` of both lists and pass the turn when `n` is odd.
   */
  function Truncated(h: History, n: int): History
  {
    if |h.boards| > n && |h.moves| > n - 1 then
      History(h.boards[..CutStart(|h.boards|, n)], h.moves[..CutStart(|h.moves|, n)],
              if n % 2 == 0 then h.player else h.player.Invert())
    else h
  }

  /** Undoing zero moves, as written, empties both lists and leaves no board to play on. */
  lemma UndoZeroClears(h: History)
    requires h.Valid()
    ensures Truncated(h, 0) == History([], [], h.player)
    ensures !Truncated(h, 0).Valid()
  {
  }

  /**
    `undo(n)` as evidently intended: the same as written for `n >= 1`, and nothing happens
    for `n <= 0`.
   */
  function Undone(h: History, n: int): History
  {
    if 1 <= n then Truncated(h, n) else h
  }

  /**
    Undoing `n` moves of a valid history, `1 <= n <= len(moves)`, removes the last `n`
    boards and moves and passes the turn exactly when `n` is odd; undoing more moves than
    were played, or none, changes nothing. Either way the history stays valid.
   */
  lemma UndoneSteps(h: History, n: int)
    requires h.Valid()
    ensures 1 <= n <= |h.moves| ==>
              Undone(h, n) == History(h.boards[..|h.boards| - n], h.moves[..|h.moves| - n],
                                      if n % 2 == 1 then h.player.Invert() else h.player)
    ensures (n < 1 || n > |h.moves|) ==> Undone(h, n) == h
    ensures Undone(h, n).Valid()
  {
  }

  /** Undoing one move right after making it restores the history. */
  lemma UndoAfterMove(h: History, m: Move, b: Board)
    requires h.Valid()
    ensures Undone(Appended(h, m, b), 1) == h
  {
    var a := Appended(h, m, b);
    assert a.boards[..|a.boards| - 1] == h.boards;
    assert a.moves[..|a.moves| - 1] == h.moves;
    InvertInvolutive(h.player);
  }

  /** Undoing `a` moves and then `b` moves is undoing `a + b` moves at once. */
  lemma UndoCompose(h: History, a: int, b: int)
    requires h.Valid() && 1 <= a && 1 <= b && a + b <= |h.moves|
    ensures Undone(Undone(h, a), b) == Undone(h, a + b)
  {
    UndoneSteps(h, a);
    var g := Undone(h, a);
    UndoneSteps(g, b);
    UndoneSteps(h, a + b);
    assert g.boards[..|g.boards| - b] == h.boards[..|h.boards| - (a + b)];
    assert g.moves[..|g.moves| - b] == h.moves[..|h.moves| - (a + b)];
    InvertInvolutive(h.player);
  }

  // ---------------------------------------------------------------------------
  // Making a move
  // ---------------------------------------------------------------------------

  /** The first argument of `make_move`: move text, a piece, or any other object. */
  datatype MoveArg = TextArg(text: string) | PieceArg(piece: Piece) | OtherArg

  /** The board a move is played on: the last one, IndexError when there is none. */
  function Current(h: History): (r: Result<Board>)
    ensures r.Ok? <==> h.boards != []
    ensures r.Err? ==> r.error == IndexError
    ensures r.Ok? ==> r.value == h.boards[|h.boards| - 1]
  {
    if h.boards == [] then Err(IndexError) else Ok(h.boards[|h.boards| - 1])
  }

  /**
    `game.parse_move(move, current_player, board)`: the player defaults to the one to move
    and the board to the last one, whose absence is an IndexError. Text outside castling
    also reads the first board (for its piece letters), so it fails with IndexError on an
    empty history even when a board is given. Outside castling, a parsed piece belongs to
    the player and its target lies on the board.
   */
  function ParseInGame(h: History, text: string, player: Option<Color>, board: Option<Board>): (r: Result<Move>)
    ensures h.boards == [] && (board.None? || !Castles(text)) ==> r == Err(IndexError)
    ensures r.Ok? && !Castles(text) ==>
              r.value.0.color == (if player.Some? then player.value else h.player) && r.value.1.WithinBoard()
  {
    var p := if player.Some? then player.value else h.player;
    if board.None? && h.boards == [] then Err(IndexError)
    else if !Castles(text) && h.boards == [] then Err(IndexError)
    else ParseMove(text, p, if board.Some? then board.value else h.boards[|h.boards| - 1])
  }

  /** With the defaults and at least one board, parsing in a game is parsing on the last board for the player to move. */
  lemma ParseInGameDefaults(h: History, text: string)
    requires h.boards != []
    ensures ParseInGame(h, text, None, None) == ParseMove(text, h.player, h.boards[|h.boards| - 1])
  {
  }

  /**
    The piece and target `make_move` works with: text without a target is parsed; a piece
    needs a target; anything else without a target is a ValueError, and a target given
    with text or another object fails reading `.color` (AttributeError).
   */
  function Resolve(h: History, arg: MoveArg, target: Option<Square>): (r: Result<Move>)
    ensures arg.PieceArg? && target.Some? ==> r == Ok((arg.piece, target.value))
    ensures !arg.TextArg? && target.None? ==> r == Err(ValueError)
    ensures !arg.PieceArg? && target.Some? ==> r == Err(AttributeError)
  {
    match arg
    case TextArg(text) => if target.None? then ParseInGame(h, text, None, None) else Err(AttributeError)
    case PieceArg(p) => if target.None? then Err(ValueError) else Ok((p, target.value))
    case OtherArg => if target.None? then Err(ValueError) else Err(AttributeError)
  }

  /**
    The second half of `make_move`: refuse a piece of the wrong colour (WrongPlayer), apply
    the move to the last board (IndexError without one, the engine's error if it refuses),
    then append the board and the move and pass the turn. A played move keeps the old boards
    and moves as a prefix, adds exactly one of each, and keeps the history valid.
   */
  function PlayMove(h: History, engine: Engine, m: Move): (r: Result<History>)
    ensures m.0.color != h.player ==> r == Err(WrongPlayer)
    ensures m.0.color == h.player && h.boards == [] ==> r == Err(IndexError)
    ensures m.0.color == h.player && h.boards != [] ==>
              var applied := engine.apply(h.boards[|h.boards| - 1], m.0, m.1);
              (r.Ok? <==> applied.Ok?) && (applied.Err? ==> r == Err(applied.error))
              && (r.Ok? ==> r.value == Appended(h, m, applied.value))
    ensures r.Ok? ==> |r.value.boards| == |h.boards| + 1 && r.value.boards[..|h.boards|] == h.boards
    ensures r.Ok? ==> r.value.moves == h.moves + [m] && r.value.player == h.player.Invert()
    ensures h.Valid() && r.Ok? ==> r.value.Valid()
  {
    if m.0.color != h.player then Err(WrongPlayer)
    else if h.boards == [] then Err(IndexError)
    else
      var b :- engine.apply(h.boards[|h.boards| - 1], m.0, m.1);
      assert (h.boards + [b])[..|h.boards|] == h.boards;
      Ok(Appended(h, m, b))
  }

  /** Undoing a move right after playing it restores the history. */
  lemma PlayThenUndo(h: History, engine: Engine, m: Move)
    requires h.Valid() && PlayMove(h, engine, m).Ok?
    ensures Undone(PlayMove(h, engine, m).value, 1) == h
  {
    var g := PlayMove(h, engine, m).value;
    assert g == Appended(h, m, g.boards[|h.boards|]);
    UndoAfterMove(h, m, g.boards[|h.boards|]);
  }

  /** `make_move(piece, target)` on a history: resolve the move, then play it. */
  function Play(h: History, engine: Engine, arg: MoveArg, target: Option<Square>): Result<History>
  {
    var m :- Resolve(h, arg, target);
    PlayMove(h, engine, m)
  }

  /**
    A successful `make_move` played the resolved move: one move more, the turn passed, the
    old moves kept, and a valid history stays valid.
   */
  lemma PlayAppends(h: History, engine: Engine, arg: MoveArg, target: Option<Square>)
    requires h.Valid() && Play(h, engine, arg, target).Ok?
    ensures Resolve(h, arg, target).Ok?
    ensures Play(h, engine, arg, target) == PlayMove(h, engine, Resolve(h, arg, target).value)
    ensures Play(h, engine, arg, target).value.Valid()
    ensures Play(h, engine, arg, target).value.moves == h.moves + [Resolve(h, arg, target).value]
    ensures Play(h, engine, arg, target).value.player == h.player.Invert()
  {
  }

  /**
    `Game(moves)` after the setup: make each move text in turn. The result is the history
    after the longest prefix that could be played and the outcome of the first failing move.
   */
  function Played(h: History, engine: Engine, texts: seq<string>): (History, Outcome)
    decreases |texts|
  {
    if texts == [] then (h, Done)
    else
      match Play(h, engine, TextArg(texts[0]), None)
      case Err(e) => (h, Failed(e))
      case Ok(next) => Played(next, engine, texts[1..])
  }

  /** Replaying no text changes nothing; otherwise the first text is made and the rest replayed, unless it fails. */
  lemma PlayedStep(h: History, engine: Engine, texts: seq<string>)
    requires texts != []
    ensures Play(h, engine, TextArg(texts[0]), None).Err? ==>
              Played(h, engine, texts) == (h, Failed(Play(h, engine, TextArg(texts[0]), None).error))
    ensures Play(h, engine, TextArg(texts[0]), None).Ok? ==>
              Played(h, engine, texts) == Played(Play(h, engine, TextArg(texts[0]), None).value, engine, texts[1..])
  {
  }

  /**
    Replaying a list of move texts keeps the moves played before as a prefix, adds at most
    one move per text, and keeps the history valid.
   */
  lemma {:induction false} PlayedExtends(h: History, engine: Engine, texts: seq<string>)
    requires h.Valid()
    decreases |texts|
    ensures Played(h, engine, texts).0.Valid()
    ensures |h.moves| <= |Played(h, engine, texts).0.moves| <= |h.moves| + |texts|
    ensures Played(h, engine, texts).0.moves[..|h.moves|] == h.moves
  {
    if texts != [] {
      PlayedStep(h, engine, texts);
      var r := Play(h, engine, TextArg(texts[0]), None);
      if r.Ok? {
        PlayAppends(h, engine, TextArg(texts[0]), None);
        PlayedExtends(r.value, engine, texts[1..]);
        var g := Played(r.value, engine, texts[1..]).0;
        assert g.moves[..|h.moves|] == g.moves[..|r.value.moves|][..|h.moves|];
      }
    }
  }

  /** One item fewer flips the parity. */
  lemma ParityStep(k: int)
    ensures (k - 1) % 2 == 0 <==> k % 2 != 0
  {
  }

  /** When every text of the list is made, exactly one move per text was added and the turn passed once per text. */
  lemma {:induction false} PlayedAll(h: History, engine: Engine, texts: seq<string>)
    requires h.Valid() && Played(h, engine, texts).1.Done?
    decreases |texts|
    ensures |Played(h, engine, texts).0.moves| == |h.moves| + |texts|
    ensures Played(h, engine, texts).0.player == (if |texts| % 2 == 0 then h.player else h.player.Invert())
  {
    if texts != [] {
      PlayedStep(h, engine, texts);
      var r := Play(h, engine, TextArg(texts[0]), None);
      assert r.Ok?;
      PlayAppends(h, engine, TextArg(texts[0]), None);
      var (g, o) := Played(r.value, engine, texts[1..]);
      assert Played(h, engine, texts) == (g, o);
      PlayedAll(r.value, engine, texts[1..]);
      assert |r.value.moves| == |h.moves| + 1 && r.value.player == h.player.Invert();
      ParityStep(|texts|);
      InvertInvolutive(h.player);
    }
  }

  /** When a text fails, fewer moves than texts were added. */
  lemma {:induction false} PlayedStops(h: History, engine: Engine, texts: seq<string>)
    requires h.Valid() && Played(h, engine, texts).1.Failed?
    decreases |texts|
    ensures |Played(h, engine, texts).0.moves| < |h.moves| + |texts|
  {
    PlayedStep(h, engine, texts);
    var r := Play(h, engine, TextArg(texts[0]), None);
    if r.Ok? {
      PlayAppends(h, engine, TextArg(texts[0]), None);
      PlayedStops(r.value, engine, texts[1..]);
    }
  }

  // ---------------------------------------------------------------------------
  // The game state
  // ---------------------------------------------------------------------------

  /** What `check_state` reports, in place of the exception it raises. */
  datatype Status = Normal | Draw(reason: string) | Checkmate(winner: Color) | Check(player: Color)

  /**
    `check_state(player)` on the last board: stalemate is reported first (a Draw whose reason
    names the player's colour letter), then checkmate, then check; the player defaults to
    the one to move. As in the source, a checkmate names the checked player as its winner.
   */
  function CheckState(h: History, engine: Engine, player: Option<Color>): (r: Result<Status>)
    ensures r.Err? <==> h.boards == []
    ensures r.Err? ==> r.error == IndexError
    ensures r.Ok? ==>
              var p := if player.Some? then player.value else h.player;
              var b := h.boards[|h.boards| - 1];
              (r.value.Draw? <==> engine.isStalemate(b, p))
              && (r.value.Checkmate? <==> !engine.isStalemate(b, p) && engine.isCheckmate(b, p))
              && (r.value.Check? <==> !engine.isStalemate(b, p) && !engine.isCheckmate(b, p) && engine.isCheck(b, p))
              && (r.value.Draw? ==> r.value.reason == "stalemate " + [H.ColorStr(p.Code())])
              && (r.value.Checkmate? ==> r.value.winner == p)
              && (r.value.Check? ==> r.value.player == p)
  {
    var p := if player.Some? then player.value else h.player;
    var b :- Current(h);
    if engine.isStalemate(b, p) then Ok(Draw("stalemate " + [H.ColorStr(p.Code())]))
    else if engine.isCheckmate(b, p) then Ok(Checkmate(p))
    else if engine.isCheck(b, p) then Ok(Check(p))
    else Ok(Normal)
  }

  /** The rest of a list of move strings from position `i` on; empty once `i` has passed the end. */
  function Drop(strs: seq<string>, i: nat): seq<string>
  {
    if i >= |strs| then [] else strs[i..]
  }

  /** From position `i` on, the rounds are the round starting at `i` followed by the rounds from `i + 2` on. */
  lemma RoundsStep(strs: seq<string>, i: nat)
    requires i < |strs|
    ensures Rounds(Drop(strs, i)) == [if i + 1 < |strs| then strs[i] + " " + strs[i + 1] else strs[i]] + Rounds(Drop(strs, i + 2))
  {
    var d := Drop(strs, i);
    assert d[0] == strs[i];
    if i + 1 < |strs| {
      assert d[1] == strs[i + 1];
      assert d[2..] == Drop(strs, i + 2);
    } else {
      assert |d| == 1 && Drop(strs, i + 2) == [];
    }
  }

  /** The loop of `__str__` that walks the move strings two at a time, pairing each White move with the Black reply that follows it. */
  method PairUp(strs: seq<string>) returns (rounds: seq<string>)
    ensures rounds == Rounds(strs)
  {
    rounds := [];
    var i := 0;
    while i < |strs|
      invariant 0 <= i && (i <= |strs| || i == |strs| + 1)
      invariant rounds + Rounds(Drop(strs, i)) == Rounds(strs)
    {
      RoundsStep(strs, i);
      var round := strs[i];
      if i + 1 < |strs| {
        round := round + " " + strs[i + 1];
      }
      rounds := rounds + [round];
      i := i + 2;
    }
    assert Drop(strs, i) == [];
    assert rounds == rounds + Rounds([]);
  }

  // ---------------------------------------------------------------------------
  // The game object
  // ---------------------------------------------------------------------------

  /** `Game`: the board engine it plays with, and the history fields the methods update in place. */
  class Game {
    const engine: Engine
    var boards: seq<Board>
    var moves: seq<Move>
    var currentPlayer: Color

    /** The fields as a history value. */
    function State(): History
      reads this
    {
      History(boards, moves, currentPlayer)
    }

    /** `len(game)`: the moves played, one fewer than the boards of a valid state. */
    function Length(): (n: nat)
      reads this
      ensures State().Valid() ==> n == |boards| - 1
    {
      |moves|
    }

    /** `Game([])`: one board holding the standard setup, no moves, white to move. */
    constructor(engine: Engine)
      ensures this.engine == engine
      ensures |boards| == 1 && boards[0].pieces == InitialPieces() && boards[0].Valid()
      ensures moves == [] && currentPlayer == White
      ensures State().Valid()
    {
      this.engine := engine;
      var b := NewBoard(InitialPieces());
      boards := [b];
      moves := [];
      currentPlayer := White;
    }

    /**
      The second half of `make_move` for a resolved piece and target: on success the fields
      hold the history PlayMove computes; on failure they are untouched and the error is the
      one PlayMove reports.
     */
    method MovePiece(p: Piece, t: Square) returns (r: Outcome)
      modifies this
      ensures r.Done? <==> PlayMove(old(State()), engine, (p, t)).Ok?
      ensures r.Done? ==> State() == PlayMove(old(State()), engine, (p, t)).value
      ensures r.Failed? ==> PlayMove(old(State()), engine, (p, t)) == Err(r.error) && State() == old(State())
    {
      if p.color != currentPlayer {
        return Failed(WrongPlayer);
      }
      if boards == [] {
        return Failed(IndexError);
      }
      var next := engine.apply(boards[|boards| - 1], p, t);
      if next.Err? {
        return Failed(next.error);
      }
      boards := boards + [next.value];
      moves := moves + [(p, t)];
      currentPlayer := currentPlayer.Invert();
      r := Done;
    }

    /**
      `make_move(piece, target)`: resolve the move (parsing text), then move the piece. On
      success the fields hold the history Play computes; on failure they are untouched and
      the error is the one Play reports.
     */
    method MakeMove(arg: MoveArg, target: Option<Square>) returns (r: Outcome)
      modifies this
      ensures r.Done? <==> Play(old(State()), engine, arg, target).Ok?
      ensures r.Done? ==> State() == Play(old(State()), engine, arg, target).value
      ensures r.Failed? ==> Play(old(State()), engine, arg, target) == Err(r.error) && State() == old(State())
    {
      var resolved := Resolve(State(), arg, target);
      if resolved.Err? {
        return Failed(resolved.error);
      }
      r := MovePiece(resolved.value.0, resolved.value.1);
    }

    /** The move loop of `Game(moves)`: make each move text in turn and stop at the first failure. */
    method Replay(texts: seq<string>) returns (r: Outcome)
      modifies this
      ensures (State(), r) == Played(old(State()), engine, texts)
    {
      r := Done;
      var i := 0;
      while i < |texts|
        invariant 0 <= i <= |texts| && r == Done
        invariant Played(old(State()), engine, texts) == Played(State(), engine, texts[i..])
      {
        PlayedStep(State(), engine, texts[i..]);
        assert texts[i..][0] == texts[i] && texts[i..][1..] == texts[i + 1..];
        r := MakeMove(TextArg(texts[i]), None);
        if r.Failed? {
          return;
        }
        i := i + 1;
      }
    }

    /** `undo(n)` as evidently intended: the fields hold `Undone` of the old history. */
    method Undo(n: int)
      modifies this
      ensures State() == Undone(old(State()), n)
    {
      if 1 <= n && |boards| > n && |moves| > n - 1 {
        boards := boards[..|boards| - n];
        moves := moves[..|moves| - n];
        currentPlayer := if n % 2 == 0 then currentPlayer else currentPlayer.Invert();
      }
    }

    /**
      `str(game)`: render every move (IndexError if one cannot be named), pair them into
      rounds two at a time, and join the rounds with line breaks plus a final one. Reading the
      text back word by word gives the move strings in order.
     */
    method ToString() returns (r: Result<string>)
      ensures MoveStrs(moves).Err? ==> r == Err(IndexError)
      ensures MoveStrs(moves).Ok? ==> r == Ok(Render(MoveStrs(moves).value))
      ensures r.Ok? ==> Tokens(r.value) == MoveStrs(moves).value
    {
      var rendered := MoveStrs(moves);
      if rendered.Err? {
        return Err(IndexError);
      }
      var strs := rendered.value;
      var rounds := PairUp(strs);
      RenderTokens(strs);
      r := Ok(Join(rounds) + "\n");
    }
  }
}
