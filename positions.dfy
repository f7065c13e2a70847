/**
  The board position (wuki/board.py, class `Board`): the list of pieces and the index from
  squares to pieces that the constructor fills in a loop, together with the queries the rest
  of the kernel asks of a board.

  board.py builds only the index and keeps the list as the plain attribute `pieces`. It
  defines neither `board[square]` (there is no `__getitem__`; a TODO comment announces one
  for the index) nor a callable `board.pieces(kind, color)` (calling the list is a
  TypeError), although game.py and ai.py use both. They are modelled here by their evident
  intent: a read of the index, and the list filtered by kind name and colour. Move application, move generation, captured pieces and the check tests are called
  by game.py and ai.py but are not part of this model's source; they are the fields of an
  `Engine` value that every operation needing them takes as a parameter.
 */
module Boards {
  import opened Errors
  import opened Builtins
  import opened Geometry
  import opened Pieces

  /** A board: the pieces in the order they were given, and the square index built from them. */
  datatype Board = Board(pieces: seq<Piece>, index: map<Square, Piece>) {
    /** The index is the one the constructor builds from `pieces`. */
    predicate Valid()
    {
      index == IndexOf(pieces)
    }
  }

  /** A move: the piece to move and its target square. */
  type Move = (Piece, Square)

  /** The squares the pieces of `ps` stand on. */
  function PositionsOf(ps: seq<Piece>): set<Square>
  {
    set p | p in ps :: p.position
  }

  /** No two pieces of `ps` stand on the same square. */
  predicate DistinctPositions(ps: seq<Piece>)
  {
    forall i, j :: 0 <= i < j < |ps| ==> ps[i].position != ps[j].position
  }

  /**
    The index the constructor builds: every piece is written under its own position in
    list order, so a later piece overwrites an earlier one on the same square. The keys are
    exactly the occupied squares and each entry is a piece of the list standing on its key.
   */
  function IndexOf(ps: seq<Piece>): (r: map<Square, Piece>)
    ensures r.Keys == PositionsOf(ps)
    ensures forall sq :: sq in r ==> r[sq].position == sq && r[sq] in ps
  {
    if ps == [] then map[]
    else
      var init := ps[..|ps| - 1];
      assert ps == init + [ps[|ps| - 1]];
      assert PositionsOf(ps) == PositionsOf(init) + {ps[|ps| - 1].position};
      IndexOf(init)[ps[|ps| - 1].position := ps[|ps| - 1]]
  }

  /** The last piece written on a square is the one the index keeps. */
  lemma {:induction false} IndexLastWriter(ps: seq<Piece>, i: int)
    requires 0 <= i < |ps|
    requires forall j :: i < j < |ps| ==> ps[j].position != ps[i].position
    ensures ps[i].position in IndexOf(ps) && IndexOf(ps)[ps[i].position] == ps[i]
  {
    if i < |ps| - 1 {
      var init := ps[..|ps| - 1];
      IndexLastWriter(init, i);
    }
  }

  /** With distinct positions every piece of the list can be found under its own square. */
  lemma IndexDistinct(ps: seq<Piece>)
    requires DistinctPositions(ps)
    ensures forall i :: 0 <= i < |ps| ==> ps[i].position in IndexOf(ps) && IndexOf(ps)[ps[i].position] == ps[i]
  {
    forall i | 0 <= i < |ps|
      ensures ps[i].position in IndexOf(ps) && IndexOf(ps)[ps[i].position] == ps[i]
    {
      IndexLastWriter(ps, i);
    }
  }

  /**
    `Board(pieces)`: keep the list and fill the index one piece at a time. Afterwards the
    index keys are exactly the positions of the given pieces and each key maps to a piece
    standing on it.
   */
  method NewBoard(pieces: seq<Piece>) returns (b: Board)
    ensures b.pieces == pieces && b.Valid()
    ensures b.index.Keys == PositionsOf(pieces)
    ensures forall sq :: sq in b.index ==> b.index[sq].position == sq && b.index[sq] in pieces
  {
    var index: map<Square, Piece> := map[];
    var i := 0;
    while i < |pieces|
      invariant 0 <= i <= |pieces|
      invariant index == IndexOf(pieces[..i])
    {
      assert pieces[..i + 1][..i] == pieces[..i];
      index := index[pieces[i].position := pieces[i]];
      i := i + 1;
    }
    assert pieces[..|pieces|] == pieces;
    b := Board(pieces, index);
  }

  /** `board[square]`: the piece on `square`, or KeyError when the square is empty. */
  function PieceAt(b: Board, sq: Square): (r: Result<Piece>)
    ensures r.Ok? <==> sq in b.index
    ensures r.Err? ==> r.error == KeyError
    ensures b.Valid() && r.Ok? ==> r.value in b.pieces && r.value.position == sq
  {
    if sq in b.index then Ok(b.index[sq]) else Err(KeyError)
  }

  /** The filter of `board.pieces(kind, color)`: the kind has the name of `kind` and the colour is `color`; an absent filter admits everything. */
  predicate Selects(kind: Option<Kind>, color: Option<Color>, p: Piece)
  {
    (kind.None? || KindEquals(kind.value, KindOp(p.kind))) && (color.None? || p.color == color.value)
  }

  /** `board.pieces(kind, color)`: the selected pieces, in list order. */
  function PiecesOf(b: Board, kind: Option<Kind>, color: Option<Color>): (r: seq<Piece>)
    ensures |r| <= |b.pieces|
    ensures forall p :: p in r <==> p in b.pieces && (kind.None? || kind.value.Letter() == p.kind.Letter()) && (color.None? || p.color == color.value)
    ensures DistinctPositions(b.pieces) ==> DistinctPositions(r)
  {
    FilterKeepsDistinctPositions(p => Selects(kind, color, p), b.pieces);
    Filter(p => Selects(kind, color, p), b.pieces)
  }

  /** Filtering a list of pieces keeps distinct positions distinct. */
  lemma {:induction false} FilterKeepsDistinctPositions(f: Piece -> bool, ps: seq<Piece>)
    ensures DistinctPositions(ps) ==> DistinctPositions(Filter(f, ps))
  {
    if ps != [] && DistinctPositions(ps) {
      FilterKeepsDistinctPositions(f, ps[1..]);
      assert DistinctPositions(ps[1..]);
      var rest := Filter(f, ps[1..]);
      if f(ps[0]) {
        forall q | q in rest ensures q.position != ps[0].position {
          var k :| 0 <= k < |ps[1..]| && ps[1..][k] == q;
          assert ps[k + 1] == q;
        }
        var r := [ps[0]] + rest;
        forall i, j | 0 <= i < j < |r| ensures r[i].position != r[j].position {
          if i > 0 {
            assert r[i] == rest[i - 1] && r[j] == rest[j - 1];
          } else {
            assert r[j] == rest[j - 1] && r[j] in rest;
          }
        }
      }
    }
  }

  /** The colour of the piece on a square, as the pawn's capture test reads it. */
  function ColorAt(b: Board): Square -> Option<Color>
  {
    sq => if sq in b.index then Some(b.index[sq].color) else None
  }

  /** `piece.possible_moves(board)`: the geometric pattern of the piece's kind from its own square. */
  function PieceMoves(p: Piece, b: Board): (r: set<Square>)
    ensures p.position.WithinBoard() ==> forall t :: t in r ==> t.WithinBoard() && t != p.position
  {
    forall t | t in Pattern(p.kind, p.position, ColorAt(b))
      ensures p.position.WithinBoard() ==> t.WithinBoard() && t != p.position
    {
      if p.position.WithinBoard() {
        PatternStaysOnBoard(p.kind, p.position, ColorAt(b), t);
      }
    }
    Pattern(p.kind, p.position, ColorAt(b))
  }

  /** A pawn may step diagonally forward exactly onto a square the board shows an opposing piece on. */
  lemma PawnCapture(p: Piece, b: Board, t: Square)
    requires p.kind.Pawn? && p.position.WithinBoard() && p.position.y != OpponentRow(p.kind.pawnColor)
    requires t.x != p.position.x
    ensures t in PieceMoves(p, b) <==>
              t.WithinBoard() && Abs(t.x - p.position.x) == 1 && t.y == p.position.y + Forward(p.kind.pawnColor)
              && t in b.index && b.index[t].color != p.kind.pawnColor
  {
    PawnMovesExact(p.kind.pawnColor, p.position, PawnEnemy(p.kind.pawnColor, ColorAt(b)), t);
  }

  /**
    The board operations game.py and ai.py call but this model's source does not define:
    `make_move`, `possible_moves(color)`, the `captured` pieces per colour, and the three
    position tests. Any functions may be supplied; the model relies on no property of them.
   */
  datatype Engine = Engine(
    apply: (Board, Piece, Square) -> Result<Board>,
    moves: (Board, Color) -> seq<Move>,
    captured: (Board, Color) -> seq<Piece>,
    isCheck: (Board, Color) -> bool,
    isCheckmate: (Board, Color) -> bool,
    isStalemate: (Board, Color) -> bool)
}
