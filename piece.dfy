/**
  Piece kinds and placed pieces (wuki/piece.py): names and letters, equality by name, the
  non-mutating `move_to`, and the geometric target set of each kind, clipped to the board
  and ignoring every other piece except for the pawn's diagonal captures.
 */
module Pieces {
  import opened Errors
  import opened Builtins
  import opened Geometry
  import H = Helpers

  /** The kind of a piece; a pawn knows its own colour (`Pawn(color)`). */
  datatype Kind = King | Queen | Rook | Bishop | Knight | Pawn(pawnColor: Color) {
    function Name(): string
    {
      match this
      case King => "King"
      case Queen => "Queen"
      case Rook => "Rook"
      case Bishop => "Bishop"
      case Knight => "Knight"
      case Pawn(_) => "Pawn"
    }

    /** The kind's upper-case letter. */
    function Letter(): (c: char)
      ensures c in "KQRBNP"
    {
      match this
      case King => 'K'
      case Queen => 'Q'
      case Rook => 'R'
      case Bishop => 'B'
      case Knight => 'N'
      case Pawn(_) => 'P'
    }
  }

  /** Kinds have distinct names and distinct letters, and only the pawn's colour is invisible to both. */
  lemma NamesAndLetters(a: Kind, b: Kind)
    ensures a.Name() == b.Name() <==> a.Letter() == b.Letter()
    ensures a.Name() == b.Name() <==> a == b || (a.Pawn? && b.Pawn?)
  {
  }

  /** A piece standing on the board; `position` is on the board whenever it was built by `NewPiece`. */
  datatype Piece = Piece(kind: Kind, color: Color, position: Square) {
    /** The letter shown for the piece: upper case for white, lower case for black. */
    function Letter(): (c: char)
      ensures Upper(c) == kind.Letter()
      ensures color == White ==> c == kind.Letter()
      ensures color == Black ==> 'a' <= c <= 'z'
    {
      if color == White then kind.Letter() else Lower(kind.Letter())
    }
  }

  /** The right-hand operand of `==`: a placed piece, a bare kind, or any other object. */
  datatype Operand = PlacedOp(piece: Piece) | KindOp(kind: Kind) | ForeignOp

  /** `AbstractPiece.__eq__`: a bare kind equals any piece or kind with the same name. */
  function KindEquals(k: Kind, other: Operand): (r: bool)
    ensures other.ForeignOp? ==> !r
    ensures other.KindOp? ==> (r <==> k.Letter() == other.kind.Letter())
    ensures other.PlacedOp? ==> (r <==> k.Letter() == other.piece.kind.Letter())
  {
    NamesAndLetters(k, if other.KindOp? then other.kind else if other.PlacedOp? then other.piece.kind else k);
    match other
    case PlacedOp(q) => k.Name() == q.kind.Name()
    case KindOp(k2) => k.Name() == k2.Name()
    case ForeignOp => false
  }

  /**
    `Piece.__eq__`: two placed pieces are equal iff they have the same name, colour and
    position; against a bare kind only the name is compared; anything else is unequal.
   */
  function PieceEquals(p: Piece, other: Operand): (r: bool)
    ensures other.PlacedOp? ==> (r <==> p.kind.Letter() == other.piece.kind.Letter() && p.color == other.piece.color && p.position == other.piece.position)
    ensures other.KindOp? ==> r == KindEquals(p.kind, other)
    ensures other.ForeignOp? ==> !r
  {
    NamesAndLetters(p.kind, if other.KindOp? then other.kind else if other.PlacedOp? then other.piece.kind else p.kind);
    match other
    case PlacedOp(q) => p.kind.Name() == q.kind.Name() && p.position == q.position && p.color == q.color
    case KindOp(k) => p.kind.Name() == k.Name()
    case ForeignOp => false
  }

  /** A pawn whose kind carries the colour of the piece itself, as every pawn the game creates does. */
  predicate Consistent(p: Piece)
  {
    p.kind.Pawn? ==> p.kind.pawnColor == p.color
  }

  /** For consistent pieces, `==` is plain value equality. */
  lemma PieceEqualsIsEquality(p: Piece, q: Piece)
    requires Consistent(p) && Consistent(q)
    ensures PieceEquals(p, PlacedOp(q)) <==> p == q
  {
    NamesAndLetters(p.kind, q.kind);
  }

  /**
    `Piece(piece, color, position)`: a position that is not a Square is converted with
    `Square(position)` (ValueError if malformed); an off-board position raises ValueError.
   */
  function NewPiece(kind: Kind, color: Color, position: Value): (r: Result<Piece>)
    ensures r.Err? ==> r.error == ValueError
    ensures r.Ok? ==> r.value.kind == kind && r.value.color == color && r.value.position.WithinBoard()
    ensures position.SquareV? ==> (r.Ok? <==> position.sq.WithinBoard())
    ensures position.SquareV? && r.Ok? ==> r.value.position == position.sq
    ensures !position.SquareV? ==> (r.Ok? <==> MakeSquare(position, None).Ok? && MakeSquare(position, None).value.WithinBoard())
    ensures !position.SquareV? && r.Ok? ==> r.value.position == MakeSquare(position, None).value
  {
    var sq :- if position.SquareV? then Ok(position.sq) else MakeSquare(position, None);
    if !sq.WithinBoard() then Err(ValueError) else Ok(Piece(kind, color, sq))
  }

  /** A piece given an integer pair stands on that square when it is on the board; `Piece(King, White, (9, 9))` is a ValueError. */
  lemma NewPieceFromPair(kind: Kind, color: Color, x: int, y: int)
    ensures NewPiece(kind, color, TupleV([IntV(x), IntV(y)])).Ok? <==> 0 <= x < H.BoardLen && 0 <= y < H.BoardLen
    ensures NewPiece(kind, color, TupleV([IntV(x), IntV(y)])).Ok? ==> NewPiece(kind, color, TupleV([IntV(x), IntV(y)])).value.position == Square(x, y)
  {
    assert MakeSquare(TupleV([IntV(x), IntV(y)]), None) == Ok(Square(x, y));
  }

  /** `move_to(target)`: a new piece of the same kind and colour on `target`; the original is untouched. */
  function MoveTo(p: Piece, target: Value): (r: Result<Piece>)
    ensures r.Err? ==> r.error == ValueError
    ensures target.SquareV? ==> (r.Ok? <==> target.sq.WithinBoard())
    ensures target.SquareV? && r.Ok? ==> r.value == p.(position := target.sq)
    ensures !target.SquareV? ==> (r.Ok? <==> MakeSquare(target, None).Ok? && MakeSquare(target, None).value.WithinBoard())
    ensures !target.SquareV? && r.Ok? ==> r.value == p.(position := MakeSquare(target, None).value)
    ensures r.Ok? ==> PieceEquals(r.value, KindOp(p.kind)) && r.value.color == p.color
  {
    NewPiece(p.kind, p.color, target)
  }

  // ---------------------------------------------------------------------------
  // Movement patterns
  // ---------------------------------------------------------------------------

  /** The eight offsets of a King step, in the order the source lists them. */
  const KingOffsets: seq<(int, int)> := [(1, 0), (-1, 0), (0, 1), (0, -1), (1, 1), (-1, 1), (1, -1), (-1, -1)]

  /** King: the on-board squares one step away in any of the eight directions. */
  function KingMoves(pos: Square): set<Square>
  {
    set d | d in KingOffsets && pos.Ray(d.0, d.1, 1).WithinBoard() :: pos.Ray(d.0, d.1, 1)
  }

  /** King targets are exactly the on-board squares at Chebyshev distance 1. */
  lemma KingMovesExact(pos: Square, t: Square)
    ensures t in KingMoves(pos) <==> t.WithinBoard() && t != pos && Abs(t.x - pos.x) <= 1 && Abs(t.y - pos.y) <= 1
  {
    if t.WithinBoard() && t != pos && Abs(t.x - pos.x) <= 1 && Abs(t.y - pos.y) <= 1 {
      var d := (t.x - pos.x, t.y - pos.y);
      assert d in KingOffsets;
      assert pos.Ray(d.0, d.1, 1) == t;
    }
  }

  /** The King pattern from `pos` is the set `expected` when both have the same members. */
  lemma KingMovesAre(pos: Square, expected: set<Square>)
    requires forall t :: t in expected <==> t.WithinBoard() && t != pos && Abs(t.x - pos.x) <= 1 && Abs(t.y - pos.y) <= 1
    ensures KingMoves(pos) == expected
  {
    forall t ensures t in KingMoves(pos) <==> t in expected {
      KingMovesExact(pos, t);
    }
  }

  /** Eight King targets from e5. */
  lemma KingMovesCentre()
    ensures |KingMoves(Square(4, 4))| == 8
  {
    var ring := {Square(5, 4), Square(3, 4), Square(4, 5), Square(4, 3), Square(5, 5), Square(3, 5), Square(5, 3), Square(3, 3)};
    forall t: Square ensures t in ring <==> t.WithinBoard() && t != Square(4, 4) && Abs(t.x - 4) <= 1 && Abs(t.y - 4) <= 1 {
      if t.WithinBoard() && t != Square(4, 4) && Abs(t.x - 4) <= 1 && Abs(t.y - 4) <= 1 {
        assert 3 <= t.x <= 5 && 3 <= t.y <= 5;
      }
    }
    KingMovesAre(Square(4, 4), ring);
    RingSize();
  }

  /** The eight squares around e5 are eight different squares. */
  lemma RingSize()
    ensures |{Square(5, 4), Square(3, 4), Square(4, 5), Square(4, 3), Square(5, 5), Square(3, 5), Square(5, 3), Square(3, 3)}| == 8
  {
    var west := {Square(3, 3), Square(3, 4), Square(3, 5)};
    var middle := {Square(4, 3), Square(4, 5)};
    var east := {Square(5, 3), Square(5, 4), Square(5, 5)};
    assert |west| == 3 && |middle| == 2 && |east| == 3;
    assert west !! middle && (west + middle) !! east;
    assert {Square(5, 4), Square(3, 4), Square(4, 5), Square(4, 3), Square(5, 5), Square(3, 5), Square(5, 3), Square(3, 3)} == west + middle + east;
  }

  /** The King targets from a5: the five neighbours on the board. */
  lemma KingMovesEdgeSquares()
    ensures KingMoves(Square(0, 4)) == {Square(1, 4), Square(0, 5), Square(0, 3), Square(1, 5), Square(1, 3)}
  {
    var expected := {Square(1, 4), Square(0, 5), Square(0, 3), Square(1, 5), Square(1, 3)};
    forall t: Square ensures t in expected <==> t.WithinBoard() && t != Square(0, 4) && Abs(t.x - 0) <= 1 && Abs(t.y - 4) <= 1 {
      if t.WithinBoard() && t != Square(0, 4) && Abs(t.x - 0) <= 1 && Abs(t.y - 4) <= 1 {
        if t.x == 0 {
          assert t.y == 3 || t.y == 5;
        } else {
          assert t.x == 1;
        }
      }
    }
    KingMovesAre(Square(0, 4), expected);
  }

  /** Five King targets on an edge (a5). */
  lemma KingMovesEdge()
    ensures |KingMoves(Square(0, 4))| == 5
  {
    KingMovesEdgeSquares();
    assert |{Square(1, 4), Square(0, 5), Square(0, 3), Square(1, 5), Square(1, 3)}| == 5;
  }

  /** Three King targets in a corner (h8). */
  lemma KingMovesCorner()
    ensures |KingMoves(Square(7, 7))| == 3
  {
    KingMovesAre(Square(7, 7), {Square(6, 7), Square(7, 6), Square(6, 6)});
  }

  /** The eight Knight candidates in the order the source builds them (±2 across, then ±1; ±2 along, then ±1). */
  function KnightCandidates(pos: Square): seq<Square>
  {
    [pos.Ray(-2, -1, 1), pos.Ray(-2, 1, 1), pos.Ray(2, -1, 1), pos.Ray(2, 1, 1),
     pos.Ray(-1, -2, 1), pos.Ray(1, -2, 1), pos.Ray(-1, 2, 1), pos.Ray(1, 2, 1)]
  }

  predicate OnBoard(s: Square)
  {
    s.WithinBoard()
  }

  /** Knight: the candidates that lie on the board, as a list. */
  function KnightMoves(pos: Square): seq<Square>
  {
    Filter(OnBoard, KnightCandidates(pos))
  }

  /** Knight targets are exactly the on-board squares two away one way and one away the other; at most 8, no repeats. */
  lemma KnightMovesExact(pos: Square, t: Square)
    ensures t in KnightMoves(pos) <==> t.WithinBoard() && ((Abs(t.x - pos.x) == 2 && Abs(t.y - pos.y) == 1) || (Abs(t.x - pos.x) == 1 && Abs(t.y - pos.y) == 2))
    ensures |KnightMoves(pos)| <= 8
    ensures forall i, j :: 0 <= i < j < |KnightMoves(pos)| ==> KnightMoves(pos)[i] != KnightMoves(pos)[j]
  {
    var c := KnightCandidates(pos);
    assert forall i, j :: 0 <= i < j < |c| ==> c[i] != c[j];
    if t.WithinBoard() && ((Abs(t.x - pos.x) == 2 && Abs(t.y - pos.y) == 1) || (Abs(t.x - pos.x) == 1 && Abs(t.y - pos.y) == 2)) {
      assert t == pos.Ray(t.x - pos.x, t.y - pos.y, 1);
      assert t in c;
    }
  }

  /** Bishop: the diagonals without the origin. */
  function BishopMoves(pos: Square): set<Square>
  {
    pos.Diagonals() - {pos}
  }

  /** Rook, as its docstring describes it: the orthogonals without the origin. */
  function RookMoves(pos: Square): set<Square>
  {
    pos.Orthogonals() - {pos}
  }

  /** Queen, as its docstring describes it: the diagonals and orthogonals without the origin. */
  function QueenMoves(pos: Square): set<Square>
  {
    (pos.Diagonals() + pos.Orthogonals()) - {pos}
  }

  /** The pawn's forward direction: +1 for white, -1 for black. */
  function Forward(c: Color): int
  {
    if c == White then 1 else -1
  }

  /** The row from which a pawn may advance two squares: 1 for white, 6 for black. */
  function StartingRow(c: Color): int
  {
    if c == White then 1 else 6
  }

  /** The opponent's home row, where a pawn has no moves: 7 for white, 0 for black. */
  function OpponentRow(c: Color): int
  {
    if c == White then 7 else 0
  }

  /**
    Pawn of colour `c`: nothing on the opponent's home row; otherwise one step forward, two
    from the starting row, and a diagonal step forward onto a square `enemyAt` reports as
    held by the opponent; all clipped to the board.
   */
  function PawnMoves(c: Color, pos: Square, enemyAt: Square -> bool): set<Square>
  {
    if pos.y == OpponentRow(c) then {}
    else
      var distance := if pos.y == StartingRow(c) then [1, 2] else [1];
      var moves := set d | d in distance :: pos.Ray(0, Forward(c), d);
      var captures := set dx | dx in [-1, 1] && enemyAt(pos.Ray(dx, Forward(c), 1)) :: pos.Ray(dx, Forward(c), 1);
      set s | s in moves + captures && s.WithinBoard()
  }

  /**
    Forward moves of a pawn: none on the opponent's home row; from the starting row the one-
    and two-step squares; elsewhere only the one-step square. A diagonal target is one the
    opponent holds.
   */
  lemma PawnMovesExact(c: Color, pos: Square, enemyAt: Square -> bool, t: Square)
    requires pos.WithinBoard()
    ensures pos.y == OpponentRow(c) ==> PawnMoves(c, pos, enemyAt) == {}
    ensures pos.y != OpponentRow(c) && t.x == pos.x ==>
              (t in PawnMoves(c, pos, enemyAt) <==> t.y == pos.y + Forward(c) || (pos.y == StartingRow(c) && t.y == pos.y + 2 * Forward(c)))
    ensures pos.y != OpponentRow(c) && t.x != pos.x ==>
              (t in PawnMoves(c, pos, enemyAt) <==> t.WithinBoard() && Abs(t.x - pos.x) == 1 && t.y == pos.y + Forward(c) && enemyAt(t))
  {
    if pos.y != OpponentRow(c) {
      if t.x == pos.x && t.y == pos.y + Forward(c) {
        assert t == pos.Ray(0, Forward(c), 1);
      }
      if t.x == pos.x && pos.y == StartingRow(c) && t.y == pos.y + 2 * Forward(c) {
        assert t == pos.Ray(0, Forward(c), 2);
      }
      if t.x != pos.x && t.WithinBoard() && Abs(t.x - pos.x) == 1 && t.y == pos.y + Forward(c) && enemyAt(t) {
        assert t == pos.Ray(t.x - pos.x, Forward(c), 1);
      }
    }
  }

  /** The diagonal capture test of a pawn of colour `c`: the square holds a piece of the other colour. */
  function PawnEnemy(c: Color, colorAt: Square -> Option<Color>): Square -> bool
  {
    sq => colorAt(sq).Some? && colorAt(sq).value != c
  }

  /**
    The geometric target set of a kind standing on `pos`, as a set; `colorAt` reports the
    colour of the piece on a square, which only the pawn's captures consult.
   */
  function Pattern(k: Kind, pos: Square, colorAt: Square -> Option<Color>): set<Square>
  {
    match k
    case King => KingMoves(pos)
    case Queen => QueenMoves(pos)
    case Rook => RookMoves(pos)
    case Bishop => BishopMoves(pos)
    case Knight => set t | t in KnightMoves(pos)
    case Pawn(c) => PawnMoves(c, pos, PawnEnemy(c, colorAt))
  }

  /** From an on-board square, no pattern contains the origin and every target is on the board. */
  lemma PatternStaysOnBoard(k: Kind, pos: Square, colorAt: Square -> Option<Color>, t: Square)
    requires pos.WithinBoard()
    requires t in Pattern(k, pos, colorAt)
    ensures t.WithinBoard() && t != pos
  {
    match k
    case King => KingMovesExact(pos, t);
    case Queen =>
      DiagonalsExact(pos, t);
      OrthogonalsExact(pos, t);
    case Rook => OrthogonalsExact(pos, t);
    case Bishop => DiagonalsExact(pos, t);
    case Knight => KnightMovesExact(pos, t);
    case Pawn(c) =>
      PawnMovesExact(c, pos, PawnEnemy(c, colorAt), t);
  }

  /** Bishop targets are the shared diagonals, Rook targets the shared rank or file, Queen targets either. */
  lemma SlidingPatterns(pos: Square, t: Square)
    requires pos.WithinBoard()
    ensures t in BishopMoves(pos) <==> t.WithinBoard() && t != pos && Abs(t.x - pos.x) == Abs(t.y - pos.y)
    ensures t in RookMoves(pos) <==> t.WithinBoard() && t != pos && (t.x == pos.x || t.y == pos.y)
    ensures t in QueenMoves(pos) <==> t in BishopMoves(pos) || t in RookMoves(pos)
  {
    DiagonalsExact(pos, t);
    OrthogonalsExact(pos, t);
  }
}
