/**
  Board geometry (wuki/board.py): the two player colours and the `Square` value type with
  its constructors, equality, offsets, notation and the diagonal and orthogonal lines
  through it.

  Python's dynamic arguments (a Square, a tuple, an int or a str where the constructor,
  `==` and `+` accept "anything") are modelled by the small value universe `Value`, so
  that the ValueError and TypeError paths of the source are explicit.
 */
module Geometry {
  import opened Errors
  import opened Builtins
  import H = Helpers

  /** A player colour, compared by value. */
  datatype Color = White | Black {
    /** The integer code the source stores: `Color.WHITE == 0`, `Color.BLACK == 1`. */
    function Code(): (k: int)
      ensures k == 0 <==> this == White
      ensures k == 1 <==> this == Black
    {
      if White? then 0 else 1
    }

    /** `~c`: the opponent's colour, `Color(1 - c.color)`. */
    function Invert(): (r: Color)
      ensures r != this
      ensures r.Code() == 1 - Code()
    {
      if White? then Black else White
    }

    /** The row of the colour's back rank, read by game.py as `home_y`: 0 for white, 7 for black. */
    function HomeY(): (y: int)
      ensures 0 <= y < H.BoardLen
      ensures y == 0 <==> this == White
    {
      if White? then 0 else H.BoardLen - 1
    }
  }

  /** `~White == Black`, `~Black == White`, `~~c == c` and the two colours differ. */
  lemma InvertInvolutive(c: Color)
    ensures White.Invert() == Black && Black.Invert() == White
    ensures c.Invert().Invert() == c
    ensures White != Black
  {
  }

  /** The Python values the geometry operations accept as arguments. */
  datatype Value = IntV(i: int) | StrV(s: string) | TupleV(items: seq<Value>) | SquareV(sq: Square)

  /** A board coordinate; off-board coordinates can be built and are recognised by `WithinBoard`. */
  datatype Square = Square(x: int, y: int) {
    /** `within_board()`. */
    predicate WithinBoard()
    {
      0 <= x < H.BoardLen && 0 <= y < H.BoardLen
    }

    /** `file_rank()`: `("abcdefgh"[x], y + 1)`; a negative x counts from the end, x >= 8 is an IndexError. */
    function FileRank(): (r: Result<(char, int)>)
      ensures r.Ok? <==> -H.BoardLen <= x < H.BoardLen
      ensures r.Ok? ==> r.value.0 in H.Files && r.value.1 == y + 1
    {
      var f :- H.FileAt(x);
      Ok((f, y + 1))
    }

    /** `str(square)`: the file letter followed by the decimal rank, e.g. "c4". */
    function Name(): (r: Result<string>)
      ensures r.Ok? <==> -H.BoardLen <= x < H.BoardLen
      ensures r.Ok? ==> 2 <= |r.value| && r.value[0] in H.Files && r.value[1..] == Decimal(y + 1)
    {
      var fr :- FileRank();
      Ok([fr.0] + Decimal(fr.1))
    }

    /** `color()`: `Color((x + 1) % 2 ^ y % 2)`; black exactly when x + y is even, so a1 is black. */
    function SquareColor(): (r: Color)
      ensures r == Black <==> (x + y) % 2 == 0
    {
      if H.XorBit((x + 1) % 2, y % 2) == 1 then Black else White
    }

    /** The square `i` steps away in direction `(dx, dy)`. */
    function Ray(dx: int, dy: int, i: int): Square
    {
      Square(x + dx * i, y + dy * i)
    }

    /** `diagonals()`: the on-board squares of the four rays of length 8 through this square, itself included. */
    function Diagonals(): set<Square>
    {
      var rising := (set i | 0 <= i < H.BoardLen :: Ray(1, 1, i))
                  + (set i | 0 <= i < H.BoardLen :: Ray(-1, -1, i));
      var falling := (set i | 0 <= i < H.BoardLen :: Ray(1, -1, i))
                   + (set i | 0 <= i < H.BoardLen :: Ray(-1, 1, i));
      set s | s in rising + falling && s.WithinBoard()
    }

    /** `orthogonals()`: all squares of row y and of column x with the other coordinate in 0..7 (not filtered). */
    function Orthogonals(): set<Square>
    {
      (set i | 0 <= i < H.BoardLen :: Square(i, y)) + (set j | 0 <= j < H.BoardLen :: Square(x, j))
    }
  }

  function Abs(n: int): nat
  {
    if n < 0 then -n else n
  }

  /**
    `Square(x, y=None)`. A Square argument is copied. Otherwise the coordinate pair is `x`
    itself when it is a 2-tuple and `y` is absent, or `(x, y)` when `y` is given; a pair of
    ints is taken as is, a one-letter string and an int as (file, rank). Every other shape
    raises ValueError, and so does a letter outside "abcdefgh" (from `str.index`).
   */
  function MakeSquare(x: Value, y: Option<Value>): (r: Result<Square>)
    ensures r.Err? ==> r.error == ValueError
    ensures x.SquareV? ==> r == Ok(x.sq)
  {
    if x.SquareV? then Ok(x.sq)
    else
      var xy :- if y.None? && x.TupleV? && |x.items| == 2 then Ok((x.items[0], x.items[1]))
                else if y.Some? then Ok((x, y.value))
                else Err(ValueError);
      if xy.0.IntV? && xy.1.IntV? then Ok(Square(xy.0.i, xy.1.i))
      else if xy.0.StrV? && |xy.0.s| == 1 && xy.1.IntV? then
        match Index(H.Files, xy.0.s)
        case None => Err(ValueError)
        case Some(f) => Ok(Square(f, xy.1.i - 1))
      else Err(ValueError)
  }

  /** The tuple form and the two-argument form of the constructor agree. */
  lemma TupleFormAgrees(a: Value, b: Value)
    requires !a.SquareV?
    ensures MakeSquare(TupleV([a, b]), None) == MakeSquare(a, Some(b))
  {
  }

  /** `Square('c', 4)` is x = "abcdefgh".index('c'), y = 4 - 1; a letter outside a..h is a ValueError. */
  lemma NotationForm(f: char, rank: int)
    ensures f in H.Files ==> exists i :: 0 <= i < H.BoardLen && H.Files[i] == f && MakeSquare(StrV([f]), Some(IntV(rank))) == Ok(Square(i, rank - 1))
    ensures f !in H.Files ==> MakeSquare(StrV([f]), Some(IntV(rank))) == Err(ValueError)
  {
    IndexOfChar(H.Files, f);
    if f in H.Files {
      var i :| 0 <= i < H.BoardLen && H.Files[i] == f;
      H.FileIndex(i);
    }
  }

  /** A lone argument that is neither a Square nor a 2-tuple, an (int, str) pair and a (str, str) pair raise ValueError. */
  lemma MalformedSquare(v: Value, n: int, s: string, t: string)
    ensures !v.SquareV? && !(v.TupleV? && |v.items| == 2) ==> MakeSquare(v, None) == Err(ValueError)
    ensures MakeSquare(IntV(n), Some(StrV(s))) == Err(ValueError)
    ensures MakeSquare(StrV(s), Some(StrV(t))) == Err(ValueError)
  {
  }

  /** For every on-board square, `Square(*sq.file_rank()) == sq` and `str(sq)` is its file letter and rank digit. */
  lemma FileRankRoundTrip(sq: Square)
    requires sq.WithinBoard()
    ensures sq.FileRank().Ok?
    ensures MakeSquare(StrV([sq.FileRank().value.0]), Some(IntV(sq.FileRank().value.1))) == Ok(sq)
    ensures sq.Name() == Ok([H.Files[sq.x], DigitChar(sq.y + 1)])
  {
    H.FileIndex(sq.x);
    assert sq.FileRank() == Ok((H.Files[sq.x], sq.y + 1));
    assert Decimal(sq.y + 1) == [DigitChar(sq.y + 1)];
    assert [H.Files[sq.x]] + [DigitChar(sq.y + 1)] == [H.Files[sq.x], DigitChar(sq.y + 1)];
  }

  /** The module-level `within_board(x, y=None)`: build a Square from the arguments, then test it. */
  function WithinBoardOf(x: Value, y: Option<Value>): (r: Result<bool>)
    ensures r.Err? ==> r.error == ValueError
    ensures x.SquareV? ==> r == Ok(x.sq.WithinBoard())
  {
    var s :- MakeSquare(x, y);
    Ok(s.WithinBoard())
  }

  /** Python's `len(v)`, absent for values that have no length. */
  function Len(v: Value): Option<nat>
  {
    match v
    case TupleV(items) => Some(|items|)
    case StrV(s) => Some(|s|)
    case _ => None
  }

  /**
    `square == other`: a 2-tuple is first turned into a Square (which may raise ValueError)
    and compared by coordinates, a Square is compared by coordinates, anything else raises
    TypeError.
   */
  function Equals(s: Square, other: Value): (r: Result<bool>)
    ensures other.SquareV? ==> r == Ok(s == other.sq)
    ensures r.Err? && r.error == TypeError <==> !other.SquareV? && !(other.TupleV? && |other.items| == 2)
    ensures r.Ok? ==> other.SquareV? || (other.TupleV? && |other.items| == 2 && MakeSquare(other, None) == Ok(s) <==> r.value)
  {
    if other.TupleV? && |other.items| == 2 then
      var o :- MakeSquare(other, None);
      Ok(s.x == o.x && s.y == o.y)
    else if other.SquareV? then Ok(s.x == other.sq.x && s.y == other.sq.y)
    else Err(TypeError)
  }

  /** Equality against a numeric pair compares coordinates; against ('c', 4) it compares with c4. */
  lemma EqualsPair(s: Square, a: int, b: int)
    ensures Equals(s, TupleV([IntV(a), IntV(b)])) == Ok(s.x == a && s.y == b)
    ensures Equals(s, TupleV([StrV("c"), IntV(4)])) == Ok(s == Square(2, 3))
  {
    H.FileIndex(2);
  }

  /**
    `square + other`: `other` must have length 2 (TypeError otherwise, also for a Square,
    which has no length) and hold two ints (adding a str or tuple to an int is a TypeError).
   */
  function Add(s: Square, other: Value): (r: Result<Square>)
    ensures r.Ok? <==> other.TupleV? && |other.items| == 2 && other.items[0].IntV? && other.items[1].IntV?
    ensures r.Err? ==> r.error == TypeError
    ensures r.Ok? ==> r.value.x - s.x == other.items[0].i && r.value.y - s.y == other.items[1].i
  {
    if Len(other) != Some(2) then Err(TypeError)
    else if other.TupleV? && other.items[0].IntV? && other.items[1].IntV? then
      Ok(Square(s.x + other.items[0].i, s.y + other.items[1].i))
    else Err(TypeError)
  }

  function Offset(dx: int, dy: int): Value
  {
    TupleV([IntV(dx), IntV(dy)])
  }

  /** Adding an offset and then its negation returns to the square; two offsets add up. */
  lemma AddOffsets(s: Square, dx: int, dy: int, ex: int, ey: int)
    ensures Add(s, Offset(dx, dy)).Ok?
    ensures Add(Add(s, Offset(dx, dy)).value, Offset(-dx, -dy)) == Ok(s)
    ensures Add(Add(s, Offset(dx, dy)).value, Offset(ex, ey)) == Add(s, Offset(dx + ex, dy + ey))
  {
  }

  /** a1 is black, b1 white, h8 black; a step along a rank or a file changes the colour, and both colour functions agree. */
  lemma SquareColors(s: Square)
    ensures Square(0, 0).SquareColor() == Black && Square(1, 0).SquareColor() == White && Square(7, 7).SquareColor() == Black
    ensures Square(s.x + 1, s.y).SquareColor() != s.SquareColor()
    ensures Square(s.x, s.y + 1).SquareColor() != s.SquareColor()
    ensures s.SquareColor().Code() == H.SquareColor((s.x, s.y))
  {
  }

  /**
    `diagonals()` is exactly the set of on-board squares whose offset from this square has
    equal absolute components below 8; for an on-board square that bound always holds, so
    the set is every on-board square on a shared diagonal, the square itself included.
   */
  lemma {:induction false} DiagonalsExact(s: Square, t: Square)
    ensures t in s.Diagonals() <==> t.WithinBoard() && Abs(t.x - s.x) == Abs(t.y - s.y) < H.BoardLen
    ensures s.WithinBoard() ==> (t in s.Diagonals() <==> t.WithinBoard() && Abs(t.x - s.x) == Abs(t.y - s.y))
  {
    var i := Abs(t.x - s.x);
    if t.WithinBoard() && Abs(t.x - s.x) == Abs(t.y - s.y) < H.BoardLen {
      if t.x >= s.x && t.y >= s.y {
        assert t == s.Ray(1, 1, i);
      } else if t.x < s.x && t.y < s.y {
        assert t == s.Ray(-1, -1, i);
      } else if t.x >= s.x {
        assert t == s.Ray(1, -1, i);
      } else {
        assert t == s.Ray(-1, 1, i);
      }
    }
  }

  /** `orthogonals()` is row y plus column x, each over 0..7; for an on-board square all of them are on the board. */
  lemma OrthogonalsExact(s: Square, t: Square)
    ensures t in s.Orthogonals() <==> (t.y == s.y && 0 <= t.x < H.BoardLen) || (t.x == s.x && 0 <= t.y < H.BoardLen)
    ensures s.WithinBoard() ==> (t in s.Orthogonals() <==> t.WithinBoard() && (t.x == s.x || t.y == s.y))
  {
    if t.y == s.y && 0 <= t.x < H.BoardLen {
      assert t == Square(t.x, s.y);
    }
    if t.x == s.x && 0 <= t.y < H.BoardLen {
      assert t == Square(s.x, t.y);
    }
  }

  lemma {:induction false} RowCount(y: int, n: nat)
    ensures |set i | 0 <= i < n :: Square(i, y)| == n
  {
    if n > 0 {
      RowCount(y, n - 1);
      assert (set i | 0 <= i < n :: Square(i, y)) == (set i | 0 <= i < n - 1 :: Square(i, y)) + {Square(n - 1, y)};
    }
  }

  lemma {:induction false} ColumnCount(x: int, n: nat)
    ensures |set j | 0 <= j < n :: Square(x, j)| == n
  {
    if n > 0 {
      ColumnCount(x, n - 1);
      assert (set j | 0 <= j < n :: Square(x, j)) == (set j | 0 <= j < n - 1 :: Square(x, j)) + {Square(x, n - 1)};
    }
  }

  /** From an on-board square, `orthogonals()` holds 15 squares: the rank and the file share only the square itself. */
  lemma OrthogonalsCount(s: Square)
    requires s.WithinBoard()
    ensures |s.Orthogonals()| == 2 * H.BoardLen - 1
  {
    var row := set i | 0 <= i < H.BoardLen :: Square(i, s.y);
    var col := set j | 0 <= j < H.BoardLen :: Square(s.x, j);
    RowCount(s.y, H.BoardLen);
    ColumnCount(s.x, H.BoardLen);
    assert Square(s.x, s.y) in row;
    assert row * col == {s};
    assert |row + col| + |row * col| == |row| + |col|;
  }
}
