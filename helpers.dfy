/**
  Coordinate helpers over plain `(x, y)` pairs (wuki/helpers.py): the board size, the file
  letters, conversion between numeric coordinates and `(file, rank)` notation, and the
  colour of a square as the integer 0 (white) or 1 (black).
 */
module Helpers {
  import opened Errors
  import opened Builtins

  const White: int := 0
  const Black: int := 1
  const BoardLen: int := 8
  const Files: string := "abcdefgh"

  /** One-letter name of an integer colour: 'w' for white, 'b' for anything else. */
  function ColorStr(color: int): (r: char)
    ensures r == 'w' || r == 'b'
    ensures r == 'w' <==> color == White
  {
    if color == White then 'w' else 'b'
  }

  /** Whether a coordinate pair lies on the 8x8 board. */
  predicate WithinBoard(position: (int, int))
  {
    0 <= position.0 < BoardLen && 0 <= position.1 < BoardLen
  }

  /** The position of each file letter in `Files`, as `str.index` finds it. */
  lemma FileIndex(i: int)
    requires 0 <= i < BoardLen
    ensures Index(Files, [Files[i]]) == Some(i)
  {
    IndexOfChar(Files, Files[i]);
  }

  /** Looking a text up in `Files` finds a file position; a single letter is found exactly when it is a file letter. */
  lemma FileLookup(col: string)
    ensures Index(Files, col).Some? ==> Index(Files, col).value < BoardLen
    ensures |col| == 1 ==> (Index(Files, col).Some? <==> col[0] in Files)
  {
    if |col| == 0 {
      assert OccursAt(Files, col, 0);
    } else if |col| == 1 {
      var c := col[0];
      assert col == [c];
      IndexOfChar(Files, c);
      if c in Files {
        var i :| 0 <= i < |Files| && Files[i] == c;
        FileIndex(i);
      }
    }
  }

  /** `coord(col, row)`: file letter and rank number to numeric coordinates; ValueError if `col` is not in "abcdefgh". */
  function Coord(col: string, row: int): (r: Result<(int, int)>)
    ensures r.Err? ==> r.error == ValueError
    ensures |col| == 1 ==> (r.Ok? <==> col[0] in Files)
    ensures r.Ok? ==> 0 <= r.value.0 < BoardLen && r.value.1 == row - 1
  {
    FileLookup(col);
    match Index(Files, col)
    case None => Err(ValueError)
    case Some(x) => Ok((x, row - 1))
  }

  /** `"abcdefgh"[x]`: Python counts a negative index from the end; anything else is an IndexError. */
  function FileAt(x: int): (r: Result<char>)
    ensures r.Ok? <==> -BoardLen <= x < BoardLen
    ensures r.Ok? ==> r.value in Files
    ensures 0 <= x < BoardLen ==> r == Ok(Files[x])
  {
    if 0 <= x < BoardLen then Ok(Files[x])
    else if -BoardLen <= x < 0 then Ok(Files[x + BoardLen])
    else Err(IndexError)
  }

  /** `square(position)`: numeric coordinates to `(file letter, rank number)`. */
  function SquareOf(position: (int, int)): (r: Result<(char, int)>)
    ensures r.Ok? <==> -BoardLen <= position.0 < BoardLen
    ensures r.Ok? ==> r.value.1 == position.1 + 1
  {
    var col :- FileAt(position.0);
    Ok((col, position.1 + 1))
  }

  /** Python's `^` on two bits. */
  function XorBit(a: int, b: int): int
  {
    if a == b then 0 else 1
  }

  /** `square_color(position)`: 1 (black) exactly on the squares whose coordinates have an even sum. */
  function SquareColor(position: (int, int)): (r: int)
    ensures r == White || r == Black
    ensures r == Black <==> (position.0 + position.1) % 2 == 0
  {
    XorBit((position.0 + 1) % 2, position.1 % 2)
  }

  /** `square(coord(c, r)) == (c, r)` for every file letter and every rank. */
  lemma CoordThenSquare(c: char, row: int)
    requires c in Files
    ensures Coord([c], row).Ok? && SquareOf(Coord([c], row).value) == Ok((c, row))
  {
    var i :| 0 <= i < |Files| && Files[i] == c;
    FileIndex(i);
  }

  /** `coord(*square(p)) == p` holds exactly for the pairs whose x lies on the board; negative x wraps round. */
  lemma SquareThenCoord(p: (int, int))
    ensures (SquareOf(p).Ok? && Coord([SquareOf(p).value.0], SquareOf(p).value.1) == Ok(p)) <==> 0 <= p.0 < BoardLen
  {
    if -BoardLen <= p.0 < BoardLen {
      var i := if p.0 < 0 then p.0 + BoardLen else p.0;
      FileIndex(i);
      assert SquareOf(p) == Ok((Files[i], p.1 + 1));
    }
  }

  /** a1 is black, and a step along a rank or a file always changes the colour. */
  lemma SquareColorAlternates(p: (int, int))
    ensures SquareColor((0, 0)) == Black
    ensures SquareColor((p.0 + 1, p.1)) != SquareColor(p)
    ensures SquareColor((p.0, p.1 + 1)) != SquareColor(p)
  {
  }

  /** `within_board` agrees with the range in which `square` and `coord` invert each other. */
  lemma WithinBoardRoundTrip(p: (int, int))
    requires WithinBoard(p)
    ensures SquareOf(p).Ok? && Coord([SquareOf(p).value.0], SquareOf(p).value.1) == Ok(p)
  {
    SquareThenCoord(p);
  }
}
