/**
  The move-choosing player of wuki/ai.py: the material value of each kind, the two
  evaluation terms (captured material and centre control), their sum, and the choice of
  the move whose resulting position scores best.

  The board operations the player calls (its moves, applying a move, the captured pieces)
  are the fields of the `Engine` every method takes.
 */
module Ai {
  import opened Errors
  import opened Geometry
  import opened Pieces
  import opened Boards

  // ---------------------------------------------------------------------------
  // Material
  // ---------------------------------------------------------------------------

  /**
    `piece_value[kind]`, looked up by the kind's letter (kinds compare by name): queen 9,
    rook 5, bishop and knight 3, a pawn of either colour 1; the King has no entry.
   */
  function LetterValue(c: char): (v: Option<nat>)
    ensures v.None? <==> c !in "QRBNP"
    ensures v.Some? ==> 1 <= v.value <= 9
    ensures v.Some? && v.value == 1 <==> c == 'P'
  {
    match c
    case 'Q' => Some(9)
    case 'R' => Some(5)
    case 'B' => Some(3)
    case 'N' => Some(3)
    case 'P' => Some(1)
    case _ => None
  }

  /** The value of a kind: a pawn is worth the same for either colour, and only the King has none. */
  lemma KindValues(k: Kind, c: Color)
    ensures LetterValue(k.Letter()).None? <==> k == King
    ensures LetterValue(Pawn(c).Letter()) == LetterValue(Pawn(c.Invert()).Letter()) == Some(1)
    ensures LetterValue(Queen.Letter()).value > LetterValue(Rook.Letter()).value > LetterValue(Bishop.Letter()).value
    ensures LetterValue(Bishop.Letter()) == LetterValue(Knight.Letter())
  {
  }

  /** The value of one piece: the value of its kind's letter. */
  function PieceValue(p: Piece): Option<nat>
  {
    LetterValue(p.kind.Letter())
  }

  /** The sum of two optional amounts; absent when either is. */
  function Plus(a: Option<nat>, b: Option<nat>): Option<nat>
  {
    if a.Some? && b.Some? then Some(a.value + b.value) else None
  }

  /** Optional sums may be regrouped. */
  lemma PlusAssociates(x: Option<nat>, y: Option<nat>, z: Option<nat>)
    ensures Plus(Plus(x, y), z) == Plus(x, Plus(y, z))
  {
  }

  /** The total value of a list of pieces, summed in list order; absent as soon as one piece has no value. */
  function Material(ps: seq<Piece>): Option<nat>
  {
    if ps == [] then Some(0)
    else Plus(Material(ps[..|ps| - 1]), PieceValue(ps[|ps| - 1]))
  }

  /** The material of one piece is its value. */
  lemma MaterialOne(p: Piece)
    ensures Material([p]) == PieceValue(p)
  {
    assert [p][..0] == [];
  }

  /** The material of two lists one after the other is the material of the first plus that of the second. */
  lemma {:induction false} MaterialAppend(a: seq<Piece>, b: seq<Piece>)
    ensures Material(a + b) == Plus(Material(a), Material(b))
    decreases |b|
  {
    if b != [] {
      var n := |b| - 1;
      assert (a + b)[..|a + b| - 1] == a + b[..n];
      assert (a + b)[|a + b| - 1] == b[n];
      MaterialAppend(a, b[..n]);
      assert Material(a + b) == Plus(Plus(Material(a), Material(b[..n])), PieceValue(b[n]));
      assert Material(b) == Plus(Material(b[..n]), PieceValue(b[n]));
      PlusAssociates(Material(a), Material(b[..n]), PieceValue(b[n]));
    } else {
      assert a + b == a;
    }
  }

  /** How many pieces of a list have the kind letter `c`. */
  function Count(ps: seq<Piece>, c: char): nat
  {
    if ps == [] then 0 else Count(ps[..|ps| - 1], c) + (if ps[|ps| - 1].kind.Letter() == c then 1 else 0)
  }

  /** The material of a list of pieces, in closed form: nine per queen, five per rook, three per bishop or knight, one per pawn. */
  lemma {:induction false} MaterialCounts(ps: seq<Piece>)
    ensures Material(ps).Some? ==>
              Material(ps).value == 9 * Count(ps, 'Q') + 5 * Count(ps, 'R') + 3 * Count(ps, 'B') + 3 * Count(ps, 'N') + Count(ps, 'P')
    decreases |ps|
  {
    if ps != [] {
      MaterialCounts(ps[..|ps| - 1]);
    }
  }

  /** The material of a list of pieces is defined exactly when no King is among them. */
  lemma {:induction false} MaterialDefined(ps: seq<Piece>)
    ensures Material(ps).Some? <==> forall i :: 0 <= i < |ps| ==> ps[i].kind != King
    decreases |ps|
  {
    if ps != [] {
      var n := |ps| - 1;
      MaterialDefined(ps[..n]);
      assert forall i :: 0 <= i < n ==> ps[..n][i] == ps[i];
    }
  }

  /** Taking one more piece of a list adds that piece's value to the material of the prefix. */
  lemma MaterialStep(ps: seq<Piece>, i: nat)
    requires i < |ps|
    ensures Material(ps[..i + 1]) == Plus(Material(ps[..i]), PieceValue(ps[i]))
  {
    assert ps[..i + 1][..i] == ps[..i];
  }

  /** A prefix without material (it holds a King) leaves the whole list without material. */
  lemma MaterialPrefixUndefined(ps: seq<Piece>, k: nat)
    requires k <= |ps| && Material(ps[..k]).None?
    ensures Material(ps).None?
  {
    assert ps == ps[..k] + ps[k..];
    MaterialAppend(ps[..k], ps[k..]);
  }

  /**
    `eval_captured` as a value: ten times the material the opponent lost minus ten times
    the material the player lost; a captured King has no value (KeyError).
   */
  function CapturedScore(own: seq<Piece>, opp: seq<Piece>): (r: Result<int>)
    ensures r.Err? ==> r.error == KeyError
  {
    var lost := Material(own);
    var won := Material(opp);
    if lost.None? || won.None? then Err(KeyError)
    else Ok(10 * won.value - 10 * lost.value)
  }

  /**
    The captured-material term in closed form: it exists exactly when no King was captured,
    and is then ten times nine per queen, five per rook, three per bishop or knight and one
    per pawn the opponent lost, minus the same for the player's own losses.
   */
  lemma CapturedScoreClosedForm(own: seq<Piece>, opp: seq<Piece>)
    ensures CapturedScore(own, opp).Ok? <==>
              (forall i :: 0 <= i < |own| ==> own[i].kind != King) && (forall i :: 0 <= i < |opp| ==> opp[i].kind != King)
    ensures CapturedScore(own, opp).Ok? ==>
              CapturedScore(own, opp).value
              == 10 * (9 * Count(opp, 'Q') + 5 * Count(opp, 'R') + 3 * Count(opp, 'B') + 3 * Count(opp, 'N') + Count(opp, 'P'))
                 - 10 * (9 * Count(own, 'Q') + 5 * Count(own, 'R') + 3 * Count(own, 'B') + 3 * Count(own, 'N') + Count(own, 'P'))
  {
    MaterialDefined(own);
    MaterialDefined(opp);
    MaterialCounts(own);
    MaterialCounts(opp);
  }

  /** Each further captured opponent piece adds ten times its value; each further own piece lost subtracts it. */
  lemma CapturedScoreStep(own: seq<Piece>, opp: seq<Piece>, p: Piece)
    requires CapturedScore(own, opp).Ok? && p.kind != King
    ensures CapturedScore(own, opp + [p]) == Ok(CapturedScore(own, opp).value + 10 * LetterValue(p.kind.Letter()).value)
    ensures CapturedScore(own + [p], opp) == Ok(CapturedScore(own, opp).value - 10 * LetterValue(p.kind.Letter()).value)
  {
    var v := LetterValue(p.kind.Letter()).value;
    MaterialOne(p);
    MaterialAppend(opp, [p]);
    MaterialAppend(own, [p]);
    assert Material(opp + [p]) == Some(Material(opp).value + v);
    assert Material(own + [p]) == Some(Material(own).value + v);
  }

  /** When both sides lost as many pieces of each kind, in any order, the captured material cancels out. */
  lemma EqualMaterialCancels(own: seq<Piece>, opp: seq<Piece>)
    requires forall c :: Count(own, c) == Count(opp, c)
    ensures CapturedScore(own, opp).Ok? ==> CapturedScore(own, opp).value == 0
  {
    MaterialCounts(own);
    MaterialCounts(opp);
  }

  // ---------------------------------------------------------------------------
  // Centre control
  // ---------------------------------------------------------------------------

  /** The core centre d5, e5, d4, e4. */
  const CoreCenter: set<Square> := {Square(3, 4), Square(4, 4), Square(3, 3), Square(4, 3)}

  /** The broad centre: the twelve squares around the core, c6 to f6, c5, f5, c4, f4 and c3 to f3. */
  const BroadCenter: set<Square> :=
    {Square(2, 5), Square(3, 5), Square(4, 5), Square(5, 5),
     Square(2, 4), Square(5, 4),
     Square(2, 3), Square(5, 3),
     Square(2, 2), Square(3, 2), Square(4, 2), Square(5, 2)}

  /** The points one piece earns by standing on `sq`: 3 in the core centre, 1 in the broad centre, else 0. */
  function CenterWeight(sq: Square): nat
  {
    if sq in CoreCenter then 3 else if sq in BroadCenter then 1 else 0
  }

  /**
    The core centre is the 2x2 block of files d, e and ranks 4, 5; the broad centre is the
    ring of the 4x4 block of files c to f and ranks 3 to 6 around it.
   */
  lemma CenterWeightExact(sq: Square)
    ensures CenterWeight(sq) == 3 <==> 3 <= sq.x <= 4 && 3 <= sq.y <= 4
    ensures CenterWeight(sq) == 1 <==> 2 <= sq.x <= 5 && 2 <= sq.y <= 5 && !(3 <= sq.x <= 4 && 3 <= sq.y <= 4)
    ensures CenterWeight(sq) == 0 <==> !(2 <= sq.x <= 5 && 2 <= sq.y <= 5)
  {
    if 3 <= sq.x <= 4 && 3 <= sq.y <= 4 {
      assert sq == Square(sq.x, sq.y);
      assert sq in CoreCenter;
    } else if 2 <= sq.x <= 5 && 2 <= sq.y <= 5 {
      assert sq !in CoreCenter;
      assert sq in BroadCenter;
    } else {
      assert sq !in CoreCenter && sq !in BroadCenter;
    }
  }

  /** `eval_center` as a value: the weights of the squares the given pieces stand on, summed in list order. */
  function CenterScore(ps: seq<Piece>): nat
  {
    if ps == [] then 0 else CenterScore(ps[..|ps| - 1]) + CenterWeight(ps[|ps| - 1].position)
  }

  /** One more piece adds the weight of its square. */
  lemma CenterScoreStep(ps: seq<Piece>, i: nat)
    requires i < |ps|
    ensures CenterScore(ps[..i + 1]) == CenterScore(ps[..i]) + CenterWeight(ps[i].position)
  {
    assert ps[..i + 1][..i] == ps[..i];
  }

  /** The score of two lists of pieces together is the sum of their scores. */
  lemma {:induction false} CenterScoreAppend(a: seq<Piece>, b: seq<Piece>)
    ensures CenterScore(a + b) == CenterScore(a) + CenterScore(b)
    decreases |b|
  {
    if b == [] {
      assert a + b == a;
    } else {
      var n := |b| - 1;
      assert (a + b)[..|a + b| - 1] == a + b[..n];
      CenterScoreAppend(a, b[..n]);
    }
  }

  /**
    Pieces on distinct squares earn at most 3 for each still unclaimed core square and 1
    for each still unclaimed broad-centre square.
   */
  lemma {:induction false} CenterScoreWithin(ps: seq<Piece>, core: set<Square>, broad: set<Square>)
    requires DistinctPositions(ps)
    requires forall p :: p in ps && p.position in CoreCenter ==> p.position in core
    requires forall p :: p in ps && p.position !in CoreCenter && p.position in BroadCenter ==> p.position in broad
    ensures CenterScore(ps) <= 3 * |core| + |broad|
    decreases |ps|
  {
    if ps != [] {
      var n := |ps| - 1;
      var init, last := ps[..n], ps[n];
      forall p | p in init ensures p.position != last.position {
        var i :| 0 <= i < n && init[i] == p;
        assert ps[i] == p;
      }
      if last.position in CoreCenter {
        CenterScoreWithin(init, core - {last.position}, broad);
      } else if last.position in BroadCenter {
        CenterScoreWithin(init, core, broad - {last.position});
      } else {
        CenterScoreWithin(init, core, broad);
      }
    }
  }

  /** Pieces on distinct squares score between 0 and 3 * 4 + 12 = 24 for the centre. */
  lemma CenterScoreBound(ps: seq<Piece>)
    requires DistinctPositions(ps)
    ensures 0 <= CenterScore(ps) <= 24
  {
    assert |CoreCenter| == 4;
    assert |BroadCenter| == 12;
    CenterScoreWithin(ps, CoreCenter, BroadCenter);
  }

  /** With two kings on e1 and e8, the score is 0; a queen on d4 makes it 3, another on d6 makes it 4. */
  lemma CenterScoreExamples(c: Color)
    ensures CenterScore([Piece(King, c, Square(4, 0)), Piece(King, c, Square(4, 7))]) == 0
    ensures CenterScore([Piece(King, c, Square(4, 0)), Piece(King, c, Square(4, 7)), Piece(Queen, c, Square(3, 3))]) == 3
    ensures CenterScore([Piece(King, c, Square(4, 0)), Piece(King, c, Square(4, 7)), Piece(Queen, c, Square(3, 3)), Piece(Queen, c, Square(3, 5))]) == 4
  {
    var k1, k8 := Piece(King, c, Square(4, 0)), Piece(King, c, Square(4, 7));
    var q4, q6 := Piece(Queen, c, Square(3, 3)), Piece(Queen, c, Square(3, 5));
    CenterWeightExact(k1.position);
    CenterWeightExact(k8.position);
    CenterWeightExact(q4.position);
    CenterWeightExact(q6.position);
    assert [k1][..0] == [];
    assert CenterScore([k1]) == 0;
    assert [k1, k8][..1] == [k1];
    assert CenterScore([k1, k8]) == 0;
    assert [k1, k8, q4][..2] == [k1, k8];
    assert CenterScore([k1, k8, q4]) == 3;
    assert [k1, k8, q4, q6][..3] == [k1, k8, q4];
  }

  // ---------------------------------------------------------------------------
  // Evaluation and move choice
  // ---------------------------------------------------------------------------

  /** `evaluate_board(board)` as a value: the captured-material term plus the centre term for `me`. */
  function Evaluation(engine: Engine, b: Board, me: Color): (r: Result<int>)
    ensures r.Ok? <==> CapturedScore(engine.captured(b, me), engine.captured(b, me.Invert())).Ok?
    ensures r.Ok? && DistinctPositions(b.pieces) ==>
              var captured := CapturedScore(engine.captured(b, me), engine.captured(b, me.Invert())).value;
              captured <= r.value <= captured + 24
  {
    assert DistinctPositions(b.pieces) ==> CenterScore(PiecesOf(b, None, Some(me))) <= 24 by {
      if DistinctPositions(b.pieces) {
        CenterScoreBound(PiecesOf(b, None, Some(me)));
      }
    }
    var captured :- CapturedScore(engine.captured(b, me), engine.captured(b, me.Invert()));
    Ok(captured + CenterScore(PiecesOf(b, None, Some(me))))
  }

  /** The score of a move: apply it to the board, then evaluate the result for `me`. */
  function Rating(engine: Engine, b: Board, me: Color, m: Move): Result<int>
  {
    var next :- engine.apply(b, m.0, m.1);
    Evaluation(engine, next, me)
  }

  /** The rating of moves on board `b` for `me`, as one function of the move. */
  function RatingOn(engine: Engine, b: Board, me: Color): Move -> Result<int>
  {
    m => Rating(engine, b, me, m)
  }

  /** The scores `rate` gives a list of moves, in order; the first move it cannot rate fails the whole list. */
  function Ratings(rate: Move -> Result<int>, ms: seq<Move>): (r: Result<seq<int>>)
    ensures r.Ok? ==> |r.value| == |ms|
  {
    if ms == [] then Ok([])
    else
      var prev :- Ratings(rate, ms[..|ms| - 1]);
      var last :- rate(ms[|ms| - 1]);
      Ok(prev + [last])
  }

  /** Each score is the rating of the move at the same place, and the scores exist exactly when every move can be rated. */
  lemma {:induction false} RatingsAt(rate: Move -> Result<int>, ms: seq<Move>)
    ensures Ratings(rate, ms).Ok? ==> forall i :: 0 <= i < |ms| ==> rate(ms[i]) == Ok(Ratings(rate, ms).value[i])
    ensures Ratings(rate, ms).Ok? <==> forall i :: 0 <= i < |ms| ==> rate(ms[i]).Ok?
    decreases |ms|
  {
    if ms != [] {
      var n := |ms| - 1;
      var init := ms[..n];
      RatingsAt(rate, init);
      forall i | 0 <= i < n ensures init[i] == ms[i] {
      }
    }
  }

  /** Rating one more move extends the scores by its rating, or fails with its error. */
  lemma RatingsStep(rate: Move -> Result<int>, ms: seq<Move>, i: nat, prev: seq<int>)
    requires i < |ms| && Ratings(rate, ms[..i]) == Ok(prev)
    ensures rate(ms[i]).Err? ==> Ratings(rate, ms[..i + 1]) == Err(rate(ms[i]).error)
    ensures rate(ms[i]).Ok? ==> Ratings(rate, ms[..i + 1]) == Ok(prev + [rate(ms[i]).value])
  {
    assert ms[..i + 1][..i] == ms[..i];
  }

  /** The rating of a move fails with the engine's error when the move cannot be applied, and is the evaluation of the result otherwise. */
  lemma RatingOnApplies(engine: Engine, b: Board, me: Color, m: Move)
    ensures engine.apply(b, m.0, m.1).Err? ==> RatingOn(engine, b, me)(m) == Err(engine.apply(b, m.0, m.1).error)
    ensures engine.apply(b, m.0, m.1).Ok? ==> RatingOn(engine, b, me)(m) == Evaluation(engine, engine.apply(b, m.0, m.1).value, me)
  {
  }

  /** Once a prefix of the moves fails to be rated, the whole list fails with the same error. */
  lemma {:induction false} RatingsPrefixFails(rate: Move -> Result<int>, ms: seq<Move>, k: nat)
    requires k <= |ms| && Ratings(rate, ms[..k]).Err?
    ensures Ratings(rate, ms) == Ratings(rate, ms[..k])
    decreases |ms| - k
  {
    if k < |ms| {
      assert ms[..k + 1][..k] == ms[..k];
      RatingsPrefixFails(rate, ms, k + 1);
    } else {
      assert ms[..k] == ms;
    }
  }

  /** `WukiAI(color)`: a player for one colour. */
  class WukiAI {
    const color: Color

    constructor(color: Color)
      ensures this.color == color
    {
      this.color := color;
    }

    /** One pass of `eval_captured`'s inner loop: add `sign` times ten times the value of each piece to `score`. */
    method Tally(pieces: seq<Piece>, sign: int, score: int) returns (r: Result<int>)
      ensures Material(pieces).None? ==> r == Err(KeyError)
      ensures Material(pieces).Some? ==> r == Ok(score + sign * 10 * Material(pieces).value)
    {
      var total := score;
      var i := 0;
      ghost var sum: nat := 0;
      while i < |pieces|
        invariant 0 <= i <= |pieces|
        invariant Material(pieces[..i]) == Some(sum)
        invariant total == score + sign * 10 * sum
      {
        var v := PieceValue(pieces[i]);
        MaterialStep(pieces, i);
        if v.None? {
          MaterialPrefixUndefined(pieces, i + 1);
          return Err(KeyError);
        }
        total := total + sign * 10 * v.value;
        sum := sum + v.value;
        assert sign * 10 * sum == sign * 10 * (sum - v.value) + sign * 10 * v.value;
        i := i + 1;
      }
      assert pieces[..i] == pieces;
      r := Ok(total);
    }

    /**
      `eval_captured(board)`: for white then black, each captured piece of that colour counts
      ten times its value, negatively when the colour is the player's own. The result is the
      captured-material term of the position, or KeyError when a King was captured.
     */
    method EvalCaptured(engine: Engine, b: Board) returns (r: Result<int>)
      ensures r == CapturedScore(engine.captured(b, color), engine.captured(b, color.Invert()))
    {
      assert color.Invert() == if color == White then Black else White;
      r := Tally(engine.captured(b, White), if color == White then -1 else 1, 0);
      if r.Err? {
        return;
      }
      r := Tally(engine.captured(b, Black), if color == Black then -1 else 1, r.value);
    }

    /**
      `eval_center(board)`: each of the player's pieces scores 3 on the core centre and 1 on
      the broad centre. On a board whose pieces stand on distinct squares the score is at
      most 24.
     */
    method EvalCenter(b: Board) returns (r: int)
      ensures r == CenterScore(PiecesOf(b, None, Some(color)))
      ensures DistinctPositions(b.pieces) ==> 0 <= r <= 24
    {
      var own := PiecesOf(b, None, Some(color));
      r := 0;
      var i := 0;
      while i < |own|
        invariant 0 <= i <= |own|
        invariant r == CenterScore(own[..i])
      {
        CenterScoreStep(own, i);
        if own[i].position in CoreCenter {
          r := r + 3;
        } else if own[i].position in BroadCenter {
          r := r + 1;
        }
        i := i + 1;
      }
      assert own[..i] == own;
      if DistinctPositions(b.pieces) {
        CenterScoreBound(own);
      }
    }

    /** `evaluate_board(board)`: the sum of the evaluation terms, captured material first. */
    method EvaluateBoard(engine: Engine, b: Board) returns (r: Result<int>)
      ensures r == Evaluation(engine, b, color)
    {
      var captured := EvalCaptured(engine, b);
      if captured.Err? {
        return Err(captured.error);
      }
      var center := EvalCenter(b);
      r := Ok(captured.value + center);
    }

    /**
      The rating loop of `get_move`: apply each move to the board and evaluate the result,
      in order; the first move that cannot be applied or evaluated ends the loop with its
      error.
     */
    method RateMoves(engine: Engine, b: Board, ms: seq<Move>) returns (r: Result<seq<int>>)
      ensures r == Ratings(RatingOn(engine, b, color), ms)
    {
      var ratings: seq<int> := [];
      var i := 0;
      while i < |ms|
        invariant 0 <= i <= |ms|
        invariant Ratings(RatingOn(engine, b, color), ms[..i]) == Ok(ratings)
      {
        RatingOnApplies(engine, b, color, ms[i]);
        RatingsStep(RatingOn(engine, b, color), ms, i, ratings);
        var next := engine.apply(b, ms[i].0, ms[i].1);
        if next.Err? {
          RatingsPrefixFails(RatingOn(engine, b, color), ms, i + 1);
          return Err(next.error);
        }
        var score := EvaluateBoard(engine, next.value);
        if score.Err? {
          RatingsPrefixFails(RatingOn(engine, b, color), ms, i + 1);
          return Err(score.error);
        }
        ratings := ratings + [score.value];
        i := i + 1;
      }
      assert ms[..i] == ms;
      r := Ok(ratings);
    }

    /**
      `max(move_rating, key=...)` over the scores in move order: the position of the first
      highest score.
     */
    method FirstBest(ratings: seq<int>) returns (best: nat)
      requires ratings != []
      ensures best < |ratings|
      ensures forall j :: 0 <= j < |ratings| ==> ratings[j] <= ratings[best]
      ensures forall j :: 0 <= j < best ==> ratings[j] < ratings[best]
    {
      best := 0;
      var k := 1;
      while k < |ratings|
        invariant 0 <= best < k <= |ratings|
        invariant forall j :: 0 <= j < k ==> ratings[j] <= ratings[best]
        invariant forall j :: 0 <= j < best ==> ratings[j] < ratings[best]
      {
        if ratings[k] > ratings[best] {
          best := k;
        }
        k := k + 1;
      }
    }

    /**
      `get_move(board, color)`: rate every move the engine offers the player (the `color`
      argument is ignored, as in the source) by the position it leads to, then take the
      first move with the highest score. The first failure while rating is reported; with no
      move at all there is no maximum (ValueError).
     */
    method GetMove(engine: Engine, b: Board, requested: Option<Color>) returns (r: Result<Move>)
      ensures var ms := engine.moves(b, color);
              var rs := Ratings(RatingOn(engine, b, color), ms);
              (rs.Err? ==> r == Err(rs.error))
              && (rs.Ok? && ms == [] ==> r == Err(ValueError))
              && (rs.Ok? && ms != [] ==>
                    r.Ok? && exists i :: 0 <= i < |ms| && ms[i] == r.value
                                         && (forall j :: 0 <= j < |ms| ==> rs.value[j] <= rs.value[i])
                                         && (forall j :: 0 <= j < i ==> rs.value[j] < rs.value[i]))
    {
      var ms := engine.moves(b, color);
      var ratings := RateMoves(engine, b, ms);
      if ratings.Err? {
        return Err(ratings.error);
      }
      if ms == [] {
        return Err(ValueError);
      }
      var best := FirstBest(ratings.value);
      r := Ok(ms[best]);
    }
  }
}
