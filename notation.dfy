/**
  The move notation of wuki/game.py: rendering a move (`move_str`) and a whole game
  (`__str__`), reading the rendered text back into move strings (the split that wuki/cli.py
  applies to a match file), and parsing one move string against a board (`parse_move`).

  A move string is `[source file][source rank][piece letter]<target file><target rank>`,
  matched as a whole, or one of the castling tokens `0-0` and `0-0-0`.
 */
module Notation {
  import opened Errors
  import opened Builtins
  import opened Geometry
  import opened Pieces
  import opened Boards
  import H = Helpers

  // ---------------------------------------------------------------------------
  // Rendering
  // ---------------------------------------------------------------------------

  /** A move string as the game text holds it: not empty, no blank and no line break. */
  predicate IsToken(s: string)
  {
    |s| > 0 && ' ' !in s && '\n' !in s
  }

  /**
    `move_str((piece, target))`: a King (compared by name) moving two files toward the
    a-file is "0-0-0", two files toward the h-file "0-0"; any other move is the source
    square, the upper-case piece letter and the target square, e.g. "a1Qa3". A square
    whose file index is 8 or more cannot be named (IndexError).
   */
  function MoveStr(m: Move): (r: Result<string>)
    ensures m.0.kind.King? && m.0.position.x - m.1.x == 2 ==> r == Ok("0-0-0")
    ensures m.0.kind.King? && m.0.position.x - m.1.x == -2 ==> r == Ok("0-0")
    ensures !(m.0.kind.King? && Abs(m.0.position.x - m.1.x) == 2) ==>
              (r.Ok? <==> m.0.position.Name().Ok? && m.1.Name().Ok?)
              && (r.Ok? ==> |r.value| >= 5 && r.value[0] in H.Files)
  {
    var (p, target) := m;
    if KindEquals(p.kind, KindOp(King)) && p.position.x - target.x == 2 then Ok("0-0-0")
    else if KindEquals(p.kind, KindOp(King)) && p.position.x - target.x == -2 then Ok("0-0")
    else
      var source :- p.position.Name();
      var dest :- target.Name();
      Ok(source + [Upper(p.Letter())] + dest)
  }

  /** The name of a square holds no blank and no line break. */
  lemma NameIsToken(sq: Square)
    requires sq.Name().Ok?
    ensures IsToken(sq.Name().value)
  {
    var s := sq.Name().value;
    assert s == [s[0]] + s[1..];
    assert forall k :: 0 <= k < |s[1..]| ==> s[1..][k] == '-' || '0' <= s[1..][k] <= '9';
  }

  /** Every rendered move is a token of the game text. */
  lemma MoveStrToken(m: Move)
    requires MoveStr(m).Ok?
    ensures IsToken(MoveStr(m).value)
  {
    if !(m.0.kind.King? && Abs(m.0.position.x - m.1.x) == 2) {
      NameIsToken(m.0.position);
      NameIsToken(m.1);
      MoveStrOrdinary(m);
      TokenJoin(m.0.position.Name().value, m.0.kind.Letter(), m.1.Name().value);
    }
  }

  /** Two tokens joined by a piece letter make a token. */
  lemma TokenJoin(source: string, letter: char, dest: string)
    requires IsToken(source) && IsToken(dest) && letter != ' ' && letter != '\n'
    ensures IsToken(source + [letter] + dest)
  {
    var s := source + [letter] + dest;
    forall i | 0 <= i < |s| ensures s[i] != ' ' && s[i] != '\n' {
      if i < |source| {
        assert s[i] == source[i];
      } else if i > |source| {
        assert s[i] == dest[i - |source| - 1];
      }
    }
  }

  /** A move that is not a two-file King move renders as the source name, the piece letter and the target name. */
  lemma MoveStrOrdinary(m: Move)
    requires !(m.0.kind.King? && Abs(m.0.position.x - m.1.x) == 2)
    requires m.0.position.Name().Ok? && m.1.Name().Ok?
    ensures MoveStr(m) == Ok(m.0.position.Name().value + [m.0.kind.Letter()] + m.1.Name().value)
  {
    KingTest(m.0.kind);
    assert Upper(m.0.Letter()) == m.0.kind.Letter();
  }

  /** Comparing a kind with the bare King kind asks whether it is the King. */
  lemma KingTest(k: Kind)
    ensures KindEquals(k, KindOp(King)) <==> k.King?
  {
  }

  /** The name of an on-board square is its file letter and its rank digit. */
  lemma NameOnBoard(sq: Square)
    requires sq.WithinBoard()
    ensures sq.Name() == Ok([H.Files[sq.x], DigitChar(sq.y + 1)])
  {
    FileRankRoundTrip(sq);
  }

  /** An ordinary move between on-board squares renders as five characters: source file and rank, piece letter, target file and rank. */
  lemma MoveStrSquares(m: Move)
    requires !(m.0.kind.King? && Abs(m.0.position.x - m.1.x) == 2)
    requires m.0.position.WithinBoard() && m.1.WithinBoard()
    ensures MoveStr(m) == Ok([H.Files[m.0.position.x], DigitChar(m.0.position.y + 1), m.0.kind.Letter(), H.Files[m.1.x], DigitChar(m.1.y + 1)])
  {
    NameOnBoard(m.0.position);
    NameOnBoard(m.1);
    MoveStrOrdinary(m);
    FiveChars(H.Files[m.0.position.x], DigitChar(m.0.position.y + 1), m.0.kind.Letter(), H.Files[m.1.x], DigitChar(m.1.y + 1));
  }

  /** Two names around a letter make a five-character text. */
  lemma FiveChars(a: char, b: char, c: char, d: char, e: char)
    ensures [a, b] + [c] + [d, e] == [a, b, c, d, e]
  {
  }

  /** The move strings of a list of moves, in order; the first move that cannot be rendered fails the whole list. */
  function MoveStrs(ms: seq<Move>): (r: Result<seq<string>>)
    ensures r.Ok? <==> forall i :: 0 <= i < |ms| ==> MoveStr(ms[i]).Ok?
    ensures r.Ok? ==> |r.value| == |ms| && forall i :: 0 <= i < |ms| ==> r.value[i] == MoveStr(ms[i]).value
    ensures r.Err? ==> r.error == IndexError
    ensures r.Ok? ==> forall i :: 0 <= i < |r.value| ==> IsToken(r.value[i])
  {
    if ms == [] then Ok([])
    else
      var s :- MoveStr(ms[0]);
      MoveStrToken(ms[0]);
      var rest :- MoveStrs(ms[1..]);
      ConsPaired(ms, s, rest, (m, t) => MoveStr(m) == Ok(t) && IsToken(t));
      Ok([s] + rest)
  }

  /** Pairing a first element with a first image, in front of pairwise related rests, relates the whole lists pairwise. */
  lemma ConsPaired<A, B>(xs: seq<A>, y: B, rest: seq<B>, rel: (A, B) -> bool)
    requires |xs| > 0 && rel(xs[0], y)
    requires |rest| == |xs| - 1 && forall i :: 0 <= i < |rest| ==> rel(xs[1..][i], rest[i])
    ensures |[y] + rest| == |xs| && forall i :: 0 <= i < |xs| ==> rel(xs[i], ([y] + rest)[i])
  {
    forall i | 1 <= i < |xs| ensures rel(xs[i], ([y] + rest)[i]) {
      assert xs[i] == xs[1..][i - 1];
    }
  }

  /** The rounds of a game: the move strings paired with a blank between them, the last one alone when the count is odd. */
  function Rounds(strs: seq<string>): (r: seq<string>)
    ensures |strs| > 0 <==> |r| > 0
    ensures (forall i :: 0 <= i < |strs| ==> '\n' !in strs[i]) ==> forall k :: 0 <= k < |r| ==> '\n' !in r[k]
  {
    if |strs| == 0 then []
    else if |strs| == 1 then [strs[0]]
    else [strs[0] + " " + strs[1]] + Rounds(strs[2..])
  }

  /** Python's `'\n'.join(lines)`. */
  function Join(lines: seq<string>): string
  {
    if |lines| == 0 then ""
    else if |lines| == 1 then lines[0]
    else lines[0] + "\n" + Join(lines[1..])
  }

  /** `str(game)` for the given move strings: one round per line and a final line break. */
  function Render(strs: seq<string>): string
  {
    Join(Rounds(strs)) + "\n"
  }

  predicate IsNonEmpty(w: string)
  {
    |w| > 0
  }

  /** The non-empty blank-separated words of each line, lines in order. */
  function Words(lines: seq<string>): seq<string>
  {
    if lines == [] then [] else Filter(IsNonEmpty, Split(lines[0], ' ')) + Words(lines[1..])
  }

  /** The move strings read back from a game text: split on line breaks, then on blanks, dropping empty words. */
  function Tokens(text: string): seq<string>
  {
    Words(Split(text, '\n'))
  }

  /** Lines free of line breaks, joined and terminated by a line break, split back into the lines and one empty tail. */
  lemma {:induction false} SplitJoin(lines: seq<string>)
    requires |lines| > 0
    requires forall k :: 0 <= k < |lines| ==> '\n' !in lines[k]
    ensures Split(Join(lines) + "\n", '\n') == lines + [""]
  {
    if |lines| == 1 {
      assert Join(lines) + "\n" == lines[0] + ['\n'] + "";
      SplitPrefix(lines[0], '\n', "");
    } else {
      SplitJoin(lines[1..]);
      assert Join(lines) + "\n" == lines[0] + ['\n'] + (Join(lines[1..]) + "\n");
      SplitPrefix(lines[0], '\n', Join(lines[1..]) + "\n");
      assert lines == [lines[0]] + lines[1..];
    }
  }

  /** The words of one round of two moves are the two moves. */
  lemma RoundWords(a: string, b: string)
    requires IsToken(a) && IsToken(b)
    ensures Filter(IsNonEmpty, Split(a + " " + b, ' ')) == [a, b]
  {
    SplitPrefix(a, ' ', b);
    SplitNone(b, ' ');
    assert a + " " + b == a + [' '] + b;
    assert Split(a + " " + b, ' ') == [a, b];
  }

  /** The words of a round holding one move are that move. */
  lemma SingleWords(a: string)
    requires IsToken(a)
    ensures Filter(IsNonEmpty, Split(a, ' ')) == [a]
  {
    SplitNone(a, ' ');
  }

  /** An empty line has no words. */
  lemma EmptyWords()
    ensures Words([""]) == []
  {
    assert Split("", ' ') == [""];
    assert Filter(IsNonEmpty, [""]) == [];
  }

  /** The words of a list of lines are the words of its first line followed by the words of the rest. */
  lemma WordsCons(line: string, rest: seq<string>)
    ensures Words([line] + rest) == Filter(IsNonEmpty, Split(line, ' ')) + Words(rest)
  {
    assert ([line] + rest)[1..] == rest;
  }

  /** The words of the rounds (plus the empty tail line) are the move strings again. */
  lemma {:induction false} WordsOfRounds(strs: seq<string>)
    requires forall i :: 0 <= i < |strs| ==> IsToken(strs[i])
    ensures Words(Rounds(strs) + [""]) == strs
  {
    if |strs| == 0 {
      EmptyWords();
    } else if |strs| == 1 {
      EmptyWords();
      SingleWords(strs[0]);
      assert Rounds(strs) + [""] == [strs[0]] + [""];
      WordsCons(strs[0], [""]);
    } else {
      var a, b, rest := strs[0], strs[1], strs[2..];
      WordsOfRounds(rest);
      assert strs == [a, b] + rest;
      WordsOfTwoMore(a, b, rest);
    }
  }

  /** A round of two moves in front of further rounds contributes exactly those two words. */
  lemma WordsOfTwoMore(a: string, b: string, rest: seq<string>)
    requires IsToken(a) && IsToken(b)
    requires Words(Rounds(rest) + [""]) == rest
    ensures Words(Rounds([a, b] + rest) + [""]) == [a, b] + rest
  {
    var strs := [a, b] + rest;
    assert strs[0] == a && strs[1] == b && strs[2..] == rest;
    assert Rounds(strs) == [a + " " + b] + Rounds(rest);
    assert Rounds(strs) + [""] == [a + " " + b] + (Rounds(rest) + [""]);
    WordsCons(a + " " + b, Rounds(rest) + [""]);
    RoundWords(a, b);
  }

  /** Reading a rendered game back (as the match-file loader does) recovers the move strings in order. */
  lemma RenderTokens(strs: seq<string>)
    requires forall i :: 0 <= i < |strs| ==> IsToken(strs[i])
    ensures Tokens(Render(strs)) == strs
  {
    if |strs| == 0 {
      assert Render(strs) == "\n" == [] + ['\n'] + "";
      SplitPrefix([], '\n', "");
      assert Split("\n", '\n') == ["", ""];
      assert Split("", ' ') == [""];
      assert Filter(IsNonEmpty, [""]) == [];
      assert ["", ""][1..] == [""];
    } else {
      SplitJoin(Rounds(strs));
      WordsOfRounds(strs);
    }
  }

  // ---------------------------------------------------------------------------
  // Lexing
  // ---------------------------------------------------------------------------

  predicate IsFile(c: char) { 'a' <= c <= 'h' }

  predicate IsRank(c: char) { '1' <= c <= '8' }

  predicate IsPieceLetter(c: char) { c in "KQRBNP" }

  /** The named groups of a matched move string. */
  datatype Notation = Notation(sourceFile: Option<char>, sourceRank: Option<char>, letter: Option<char>, targetFile: char, targetRank: char) {
    /** Every present group holds a character of its class. */
    predicate WellFormed()
    {
      (sourceFile.Some? ==> IsFile(sourceFile.value))
      && (sourceRank.Some? ==> IsRank(sourceRank.value))
      && (letter.Some? ==> IsPieceLetter(letter.value))
      && IsFile(targetFile) && IsRank(targetRank)
    }
  }

  function Opt(c: Option<char>): string
  {
    if c.Some? then [c.value] else []
  }

  /** The text of the groups, written one after the other. */
  function Unlex(n: Notation): string
  {
    Opt(n.sourceFile) + Opt(n.sourceRank) + Opt(n.letter) + [n.targetFile, n.targetRank]
  }

  /** The three classes of the optional groups. */
  datatype Group = FileGroup | RankGroup | LetterGroup

  predicate InGroup(c: char, g: Group)
  {
    match g
    case FileGroup => IsFile(c)
    case RankGroup => IsRank(c)
    case LetterGroup => IsPieceLetter(c)
  }

  /** An optional group at the head of `s`: its character when `s` starts with one of the class, else nothing; `s` is the group's text followed by the rest. */
  function Head(s: string, g: Group): (r: Option<char>)
    ensures r.Some? <==> |s| > 0 && InGroup(s[0], g)
    ensures r.Some? ==> r.value == s[0]
    ensures |Opt(r)| <= |s| && s == Opt(r) + s[|Opt(r)|..]
  {
    if |s| > 0 && InGroup(s[0], g) then Some(s[0]) else None
  }

  /**
    Match a whole move string against `[a-h]?[1-8]?[KQRBNP]?[a-h][1-8]`. The target is the
    last two characters; the optional groups before it are taken in order, and since their
    classes are disjoint the match is unique.
   */
  function Lex(text: string): (r: Option<Notation>)
    ensures r.Some? ==> r.value.WellFormed() && Unlex(r.value) == text
  {
    if |text| < 2 || !IsFile(text[|text| - 2]) || !IsRank(text[|text| - 1]) then None
    else
      var pre := text[..|text| - 2];
      var sf := Head(pre, FileGroup);
      var r1 := pre[|Opt(sf)|..];
      var sr := Head(r1, RankGroup);
      var r2 := r1[|Opt(sr)|..];
      var l := Head(r2, LetterGroup);
      if |r2| != |Opt(l)| then None
      else
        Assemble(text, pre, r1, r2, Opt(sf), Opt(sr), Opt(l));
        Some(Notation(sf, sr, l, text[|text| - 2], text[|text| - 1]))
  }

  /** A text whose head, cut into group texts `a`, `b`, `c`, precedes a two-character target is those four parts in order. */
  lemma Assemble(text: string, pre: string, r1: string, r2: string, a: string, b: string, c: string)
    requires |text| >= 2 && pre == text[..|text| - 2] && pre == a + r1 && r1 == b + r2 && r2 == c
    ensures text == a + b + c + [text[|text| - 2], text[|text| - 1]]
  {
    assert text == pre + [text[|text| - 2], text[|text| - 1]];
  }

  /** Every well-formed group assignment is matched back from its own text. */
  lemma LexUnlex(n: Notation)
    requires n.WellFormed()
    ensures Lex(Unlex(n)) == Some(n)
  {
    var text := Unlex(n);
    var tail := Opt(n.sourceRank) + Opt(n.letter);
    var pre := Opt(n.sourceFile) + tail;
    assert text == pre + [n.targetFile, n.targetRank];
    assert text[..|text| - 2] == pre;
    HeadOpt(n.sourceFile, tail, FileGroup);
    HeadOpt(n.sourceRank, Opt(n.letter), RankGroup);
    HeadOpt(n.letter, [], LetterGroup);
    assert Opt(n.letter) + [] == Opt(n.letter);
  }

  /** An optional group followed by text that does not start with its class is read back as that group, leaving the text. */
  lemma HeadOpt(c: Option<char>, rest: string, g: Group)
    requires c.Some? ==> InGroup(c.value, g)
    requires c.None? ==> rest == [] || !InGroup(rest[0], g)
    ensures Head(Opt(c) + rest, g) == c
    ensures (Opt(c) + rest)[|Opt(c)|..] == rest
  {
    if c.Some? {
      assert (Opt(c) + rest)[0] == c.value;
    } else {
      assert Opt(c) + rest == rest;
    }
  }

  /** The column of a file letter. */
  function FileNumber(c: char): (x: int)
    requires IsFile(c)
    ensures 0 <= x < H.BoardLen && H.Files[x] == c
  {
    c as int - 'a' as int
  }

  /** `Square(file, int(rank))` for a file letter and a rank digit: an on-board square whose name is those two characters. */
  lemma NotationSquare(f: char, d: char)
    requires IsFile(f) && IsRank(d)
    ensures MakeSquare(StrV([f]), Some(IntV(DigitValue(d)))) == Ok(Square(FileNumber(f), DigitValue(d) - 1))
    ensures Square(FileNumber(f), DigitValue(d) - 1).WithinBoard()
    ensures Square(FileNumber(f), DigitValue(d) - 1).Name() == Ok([f, d])
  {
    H.FileIndex(FileNumber(f));
    FileRankRoundTrip(Square(FileNumber(f), DigitValue(d) - 1));
  }

  // ---------------------------------------------------------------------------
  // Parsing
  // ---------------------------------------------------------------------------

  /** `"0-" in move`: the text is taken for castling. */
  predicate Castles(text: string)
  {
    Index(text, "0-").Some?
  }

  /** The piece letter a move asks for: the one written, else a pawn of the mover's colour ('P' or 'p'). */
  function PieceId(n: Notation, player: Color): char
  {
    if n.letter.Some? then n.letter.value else if player == White then 'P' else 'p'
  }

  /** The kind named by a piece letter of either case; KeyError for any other character. */
  function KindOfLetter(c: char, player: Color): (r: Result<Kind>)
    ensures r.Ok? <==> Upper(c) in "KQRBNP"
    ensures r.Ok? ==> r.value.Letter() == Upper(c)
    ensures r.Err? ==> r.error == KeyError
  {
    match Upper(c)
    case 'K' => Ok(King)
    case 'Q' => Ok(Queen)
    case 'R' => Ok(Rook)
    case 'B' => Ok(Bishop)
    case 'N' => Ok(Knight)
    case 'P' => Ok(Pawn(player))
    case _ => Err(KeyError)
  }

  /** The piece stands on the hinted file, if a file is hinted. */
  predicate OnFile(p: Piece, f: Option<char>)
  {
    f.None? || (p.position.FileRank().Ok? && p.position.FileRank().value.0 == f.value)
  }

  /** The piece stands on the hinted rank, if a rank is hinted. */
  predicate OnRank(p: Piece, d: Option<char>)
  {
    d.None? || ('0' <= d.value <= '9' && p.position.y + 1 == DigitValue(d.value))
  }

  /** A piece of the board that could be the source: the mover's, of the named kind, able to reach the target, on the hinted file and rank. */
  predicate Fits(p: Piece, b: Board, kind: Kind, player: Color, target: Square, sf: Option<char>, sr: Option<char>)
  {
    p in b.pieces && p.kind.Letter() == kind.Letter() && p.color == player
    && target in PieceMoves(p, b) && OnFile(p, sf) && OnRank(p, sr)
  }

  /**
    The source candidates of a move without a full source square: the mover's pieces of the
    named kind, in board order, that can reach the target and stand on the hinted file and rank.
   */
  function Candidates(b: Board, kind: Kind, player: Color, target: Square, sf: Option<char>, sr: Option<char>): (r: seq<Piece>)
    ensures forall p :: p in r <==> Fits(p, b, kind, player, target, sf, sr)
    ensures (forall i, j :: 0 <= i < j < |b.pieces| ==> b.pieces[i] != b.pieces[j]) ==> forall i, j :: 0 <= i < j < |r| ==> r[i] != r[j]
  {
    var own := PiecesOf(b, Some(kind), Some(player));
    var reach := Filter((p: Piece) => target in PieceMoves(p, b), own);
    var byFile := if sf.Some? then Filter((p: Piece) => OnFile(p, sf), reach) else reach;
    if sr.Some? then Filter((p: Piece) => OnRank(p, sr), byFile) else byFile
  }

  /**
    The hint filters of `parse_move` as written: they read `p.position.file` and
    `p.position.rank`, attributes a Square does not have, so a file or rank hint raises
    AttributeError as soon as one piece that reaches the target is left to test. When they
    do succeed they agree with `Candidates`.
   */
  function HintFilterAsWritten(b: Board, kind: Kind, player: Color, target: Square, sf: Option<char>, sr: Option<char>): (r: Result<seq<Piece>>)
    ensures r.Err? <==> (sf.Some? || sr.Some?) && |Candidates(b, kind, player, target, None, None)| > 0
    ensures r.Err? ==> r.error == AttributeError
    ensures r.Ok? ==> r.value == Candidates(b, kind, player, target, sf, sr)
  {
    var reach := Candidates(b, kind, player, target, None, None);
    if (sf.Some? || sr.Some?) && reach != [] then Err(AttributeError)
    else
      NoReachNoCandidates(Candidates(b, kind, player, target, sf, sr), reach, b, kind, player, target, sf, sr);
      Ok(reach)
  }

  /** When no piece fits without hints, none fits with them. */
  lemma NoReachNoCandidates(cs: seq<Piece>, reach: seq<Piece>, b: Board, kind: Kind, player: Color, target: Square, sf: Option<char>, sr: Option<char>)
    requires forall p :: p in cs <==> Fits(p, b, kind, player, target, sf, sr)
    requires forall p :: p in reach <==> Fits(p, b, kind, player, target, None, None)
    ensures reach == [] ==> cs == []
  {
    forall p | p in cs ensures p in reach {
      assert Fits(p, b, kind, player, target, None, None);
    }
    assert |cs| > 0 ==> cs[0] in reach;
  }

  /**
    The castling branch of `parse_move`: the piece on the e-file of the player's home row
    (KeyError if the square is empty) moves to the g-file for "0-0" or the c-file for
    "0-0-0", provided its pattern holds that square; any other text leaves the target
    unbound.
   */
  function ParseCastling(text: string, player: Color, b: Board): (r: Result<Move>)
    ensures r.Ok? ==> Square(4, player.HomeY()) in b.index && r.value.0 == b.index[Square(4, player.HomeY())]
    ensures r.Ok? ==> r.value.1 in PieceMoves(r.value.0, b)
    ensures r.Ok? ==> r.value.1 == Square(if text == "0-0" then 6 else 2, player.HomeY())
  {
    var y := player.HomeY();
    var king :- PieceAt(b, Square(4, y));
    var target :- if text == "0-0" then Ok(Square(6, y)) else if text == "0-0-0" then Ok(Square(2, y)) else Err(UnboundLocalError);
    if target in PieceMoves(king, b) then Ok((king, target)) else Err(MoveParse("Castling not possible", text))
  }

  /** The target square of a matched move, `Square(file, int(rank))`; NotationSquare shows the constructor builds this on-board square. */
  function Target(n: Notation): (t: Square)
    requires n.WellFormed()
    ensures t.WithinBoard()
  {
    NotationSquare(n.targetFile, n.targetRank);
    Square(FileNumber(n.targetFile), DigitValue(n.targetRank) - 1)
  }

  /** The source piece of a matched move: the piece on the full source square, or else the one remaining candidate. */
  function Source(text: string, n: Notation, player: Color, b: Board): (r: Result<Piece>)
    requires n.WellFormed()
  {
    if n.sourceFile.Some? && n.sourceRank.Some? then
      PieceAt(b, SourceSquare(n))
    else
      var kind :- KindOfLetter(PieceId(n, player), player);
      var cs := Candidates(b, kind, player, Target(n), n.sourceFile, n.sourceRank);
      if |cs| == 1 then Ok(cs[0]) else Err(AmbiguousMove("Source piece inference not possible", text))
  }

  /** The closing checks of `parse_move`: the piece must carry the requested letter and the player's colour. */
  function Checked(text: string, pieceId: char, player: Color, piece: Piece, target: Square): (r: Result<Move>)
    ensures r.Ok? <==> piece.kind.Letter() == Upper(pieceId) && piece.color == player
    ensures r.Ok? ==> r.value == (piece, target)
    ensures r.Err? ==> r.error.MoveParse?
  {
    if Upper(pieceId) != Upper(piece.Letter()) then
      Err(MoveParse("Specified source piece and piece on that square do not match (is " + [Upper(piece.Letter())] + ")", text))
    else if player != piece.color then
      Err(MoveParse("Color of piece at source square does not match current player", text))
    else Ok((piece, target))
  }

  /**
    `parse_move(move, player, board)`: text holding "0-" takes the castling branch; other
    text must match the grammar (MoveParse otherwise), its source piece is resolved, and the
    piece's letter and colour are checked.
   */
  function ParseMove(text: string, player: Color, b: Board): (r: Result<Move>)
    ensures !Castles(text) && Lex(text).None? ==> r == Err(MoveParse("Wrong move format", text))
    ensures r.Ok? && !Castles(text) ==> r.value.0.color == player && r.value.1.WithinBoard()
    ensures r.Ok? && !Castles(text) ==> r.value.0.kind.Letter() == Upper(PieceId(Lex(text).value, player))
  {
    if Castles(text) then ParseCastling(text, player, b)
    else
      match Lex(text)
      case None => Err(MoveParse("Wrong move format", text))
      case Some(n) =>
        var piece :- Source(text, n, player, b);
        Checked(text, PieceId(n, player), player, piece, Target(n))
  }

  /** Outside castling, parsing is lexing, resolving the source and checking it. */
  lemma ParseSteps(text: string, n: Notation, player: Color, b: Board)
    requires !Castles(text) && Lex(text) == Some(n)
    ensures ParseMove(text, player, b) ==
              if Source(text, n, player, b).Err? then Err(Source(text, n, player, b).error)
              else Checked(text, PieceId(n, player), player, Source(text, n, player, b).value, Target(n))
  {
  }

  // ---------------------------------------------------------------------------
  // Properties of the parser
  // ---------------------------------------------------------------------------

  /** Text without a dash is never taken for castling. */
  lemma NoDashNoCastle(text: string)
    requires '-' !in text
    ensures !Castles(text)
  {
    forall j ensures !OccursAt(text, "0-", j) {
      if 0 <= j && j + 2 <= |text| {
        assert text[j + 1] != '-';
        assert text[j..j + 2][1] == text[j + 1];
      }
    }
  }

  /** The full source square written in a move. */
  function SourceSquare(n: Notation): (s: Square)
    requires n.WellFormed() && n.sourceFile.Some? && n.sourceRank.Some?
    ensures s.WithinBoard()
  {
    NotationSquare(n.sourceFile.value, n.sourceRank.value);
    Square(FileNumber(n.sourceFile.value), DigitValue(n.sourceRank.value) - 1)
  }

  /** With a full source square the piece standing there is taken: KeyError if the square is empty, MoveParse unless its letter and colour are the ones asked for. */
  lemma ParseDirect(text: string, n: Notation, player: Color, b: Board)
    requires !Castles(text) && Lex(text) == Some(n)
    requires n.sourceFile.Some? && n.sourceRank.Some?
    ensures var r := ParseMove(text, player, b);
            (SourceSquare(n) !in b.index ==> r == Err(KeyError))
            && (SourceSquare(n) in b.index ==> (r.Ok? <==> b.index[SourceSquare(n)].kind.Letter() == Upper(PieceId(n, player)) && b.index[SourceSquare(n)].color == player))
            && (r.Ok? ==> r.value == (b.index[SourceSquare(n)], Target(n)))
  {
    ParseSteps(text, n, player, b);
  }

  /** The letter a parsed move asks for always names a kind. */
  lemma PieceIdNamesKind(n: Notation, player: Color)
    requires n.WellFormed()
    ensures KindOfLetter(PieceId(n, player), player).Ok?
  {
  }

  /** Without a full source square the source is the one remaining candidate; zero or several are an AmbiguousMove. */
  lemma SourceInferred(text: string, n: Notation, player: Color, b: Board)
    requires n.WellFormed() && !(n.sourceFile.Some? && n.sourceRank.Some?)
    ensures KindOfLetter(PieceId(n, player), player).Ok?
    ensures var cs := Candidates(b, KindOfLetter(PieceId(n, player), player).value, player, Target(n), n.sourceFile, n.sourceRank);
            Source(text, n, player, b) == if |cs| == 1 then Ok(cs[0]) else Err(AmbiguousMove("Source piece inference not possible", text))
  {
    PieceIdNamesKind(n, player);
  }

  /**
    Without a full source square, the move succeeds exactly when one candidate remains,
    and then that candidate moves to the target; zero or two and more candidates are an
    AmbiguousMove.
   */
  lemma ParseInferred(text: string, n: Notation, player: Color, b: Board)
    requires !Castles(text) && Lex(text) == Some(n)
    requires !(n.sourceFile.Some? && n.sourceRank.Some?)
    ensures KindOfLetter(PieceId(n, player), player).Ok? &&
            var cs := Candidates(b, KindOfLetter(PieceId(n, player), player).value, player, Target(n), n.sourceFile, n.sourceRank);
            (|cs| != 1 ==> ParseMove(text, player, b) == Err(AmbiguousMove("Source piece inference not possible", text)))
            && (|cs| == 1 ==> ParseMove(text, player, b) == Ok((cs[0], Target(n))))
  {
    SourceInferred(text, n, player, b);
    ParseSteps(text, n, player, b);
    var kind := KindOfLetter(PieceId(n, player), player).value;
    var cs := Candidates(b, kind, player, Target(n), n.sourceFile, n.sourceRank);
    if |cs| == 1 {
      assert cs[0] in cs;
      assert Checked(text, PieceId(n, player), player, cs[0], Target(n)) == Ok((cs[0], Target(n)));
    }
  }

  /**
    An inferred source is unique: every other piece of the mover that has the named kind,
    reaches the target and fits the hints is that same piece.
   */
  lemma ParseInferredUnique(text: string, n: Notation, player: Color, b: Board)
    requires !Castles(text) && Lex(text) == Some(n)
    requires !(n.sourceFile.Some? && n.sourceRank.Some?)
    ensures var r := ParseMove(text, player, b);
            r.Ok? ==> forall q :: (q in b.pieces && q.kind.Letter() == Upper(PieceId(n, player)) && q.color == player
                                   && Target(n) in PieceMoves(q, b) && OnFile(q, n.sourceFile) && OnRank(q, n.sourceRank)) ==> q == r.value.0
  {
    ParseInferred(text, n, player, b);
    var kind := KindOfLetter(PieceId(n, player), player).value;
    if |Candidates(b, kind, player, Target(n), n.sourceFile, n.sourceRank)| == 1 {
      SingleCandidate(b, kind, player, Target(n), n.sourceFile, n.sourceRank);
    }
  }

  /** A single candidate is the only piece that fits: any piece of the mover with the kind's letter that reaches the target and fits the hints is it. */
  lemma SingleCandidate(b: Board, kind: Kind, player: Color, target: Square, sf: Option<char>, sr: Option<char>)
    requires |Candidates(b, kind, player, target, sf, sr)| == 1
    ensures forall q :: Fits(q, b, kind, player, target, sf, sr) ==> q == Candidates(b, kind, player, target, sf, sr)[0]
  {
    SoleFitting(Candidates(b, kind, player, target, sf, sr), b, kind, player, target, sf, sr);
  }

  /** When a one-element list holds exactly the fitting pieces, every fitting piece is its element. */
  lemma SoleFitting(cs: seq<Piece>, b: Board, kind: Kind, player: Color, target: Square, sf: Option<char>, sr: Option<char>)
    requires |cs| == 1 && forall p :: p in cs <==> Fits(p, b, kind, player, target, sf, sr)
    ensures forall q :: Fits(q, b, kind, player, target, sf, sr) ==> q == cs[0]
  {
    var only := cs[0];
    assert cs == [only];
    forall q | Fits(q, b, kind, player, target, sf, sr) ensures q == only {
      assert q in [only];
    }
  }

  /** The file letters are the characters a to h, and FileNumber inverts indexing into them. */
  lemma FileLetters(x: int)
    requires 0 <= x < H.BoardLen
    ensures IsFile(H.Files[x]) && FileNumber(H.Files[x]) == x
  {
  }

  /** The rank digits 1 to 8 and their values. */
  lemma RankDigits(y: int)
    requires 0 <= y < H.BoardLen
    ensures IsRank(DigitChar(y + 1)) && DigitValue(DigitChar(y + 1)) == y + 1
  {
  }

  /** The groups `move_str` writes for an ordinary move: full source square, upper-case letter, target square. */
  function MoveNotation(m: Move): (n: Notation)
    requires m.0.position.WithinBoard() && m.1.WithinBoard()
    ensures n.WellFormed() && n.sourceFile.Some? && n.sourceRank.Some?
    ensures SourceSquare(n) == m.0.position && Target(n) == m.1 && n.letter == Some(m.0.kind.Letter())
  {
    FileLetters(m.0.position.x);
    FileLetters(m.1.x);
    RankDigits(m.0.position.y);
    RankDigits(m.1.y);
    Notation(Some(H.Files[m.0.position.x]), Some(DigitChar(m.0.position.y + 1)), Some(m.0.kind.Letter()), H.Files[m.1.x], DigitChar(m.1.y + 1))
  }

  /** The string of an ordinary move is the text of its groups. */
  lemma MoveStrUnlex(m: Move)
    requires !(m.0.kind.King? && Abs(m.0.position.x - m.1.x) == 2)
    requires m.0.position.WithinBoard() && m.1.WithinBoard()
    ensures MoveStr(m) == Ok(Unlex(MoveNotation(m)))
  {
    MoveStrSquares(m);
    UnlexFull(H.Files[m.0.position.x], DigitChar(m.0.position.y + 1), m.0.kind.Letter(), H.Files[m.1.x], DigitChar(m.1.y + 1));
  }

  /** Groups with all three optional parts present are written as five characters. */
  lemma UnlexFull(f: char, d: char, l: char, tf: char, tr: char)
    ensures Unlex(Notation(Some(f), Some(d), Some(l), tf, tr)) == [f, d, l, tf, tr]
  {
    assert [f] + [d] + [l] + [tf, tr] == [f, d, l, tf, tr];
  }

  /** Well-formed groups are written without a dash, so their text is never taken for castling. */
  lemma UnlexNotCastling(n: Notation)
    requires n.WellFormed()
    ensures !Castles(Unlex(n))
  {
    var text := Unlex(n);
    forall i | 0 <= i < |text| ensures text[i] != '-' {
      var k := i - |Opt(n.sourceFile)|;
      var l := k - |Opt(n.sourceRank)|;
      var u := l - |Opt(n.letter)|;
      if k < 0 {
        assert text[i] == n.sourceFile.value;
      } else if l < 0 {
        assert text[i] == n.sourceRank.value;
      } else if u < 0 {
        assert text[i] == n.letter.value;
      }
    }
    NoDashNoCastle(text);
  }

  /** The string of an ordinary move is matched by the grammar, group for group, and is not taken for castling. */
  lemma MoveStrLexes(m: Move)
    requires !(m.0.kind.King? && Abs(m.0.position.x - m.1.x) == 2)
    requires m.0.position.WithinBoard() && m.1.WithinBoard()
    ensures MoveStr(m).Ok? && !Castles(MoveStr(m).value) && Lex(MoveStr(m).value) == Some(MoveNotation(m))
  {
    MoveStrUnlex(m);
    LexUnlex(MoveNotation(m));
    UnlexNotCastling(MoveNotation(m));
  }

  /**
    Rendering then parsing an ordinary move gives the move back: on a board that holds the
    piece on its own square, with the mover to play, the string `move_str` writes is parsed
    (through its full source square) to the same piece and target.
   */
  lemma MoveStrParses(m: Move, b: Board)
    requires !(m.0.kind.King? && Abs(m.0.position.x - m.1.x) == 2)
    requires m.0.position.WithinBoard() && m.1.WithinBoard()
    requires m.0.position in b.index && b.index[m.0.position] == m.0
    ensures MoveStr(m).Ok? && ParseMove(MoveStr(m).value, m.0.color, b) == Ok(m)
  {
    MoveStrLexes(m);
    var n := MoveNotation(m);
    UpperKindLetter(m.0.kind);
    assert PieceId(n, m.0.color) == m.0.kind.Letter();
    ParseDirect(MoveStr(m).value, n, m.0.color, b);
  }

  /** The letter of a kind is already upper case. */
  lemma UpperKindLetter(k: Kind)
    ensures Upper(k.Letter()) == k.Letter()
  {
  }

  /** "0-" opens every castling token. */
  lemma CastlingTokens()
    ensures Castles("0-0") && Castles("0-0-0")
  {
    assert OccursAt("0-0", "0-", 0);
    assert OccursAt("0-0-0", "0-", 0);
  }

  /**
    Castling text names the piece on the e-file of the player's home row. When that piece
    is a King (and the board's index is the one its pieces build), its pattern holds no
    square two files away, so both castling tokens are rejected.
   */
  lemma CastlingRejected(player: Color, b: Board)
    requires b.Valid()
    requires Square(4, player.HomeY()) in b.index && b.index[Square(4, player.HomeY())].kind == King
    ensures ParseMove("0-0", player, b) == Err(MoveParse("Castling not possible", "0-0"))
    ensures ParseMove("0-0-0", player, b) == Err(MoveParse("Castling not possible", "0-0-0"))
  {
    CastlingTokens();
    var y := player.HomeY();
    KingMovesExact(Square(4, y), Square(6, y));
    KingMovesExact(Square(4, y), Square(2, y));
  }

  /** Text holding "0-" that is neither castling token fails: KeyError when the e-file home square is empty,
      otherwise the unbound target; "0-1" is one such text. */
  lemma CastlingMalformed(text: string, player: Color, b: Board)
    requires Castles(text) && text != "0-0" && text != "0-0-0"
    ensures Square(4, player.HomeY()) !in b.index ==> ParseMove(text, player, b) == Err(KeyError)
    ensures Square(4, player.HomeY()) in b.index ==> ParseMove(text, player, b) == Err(UnboundLocalError)
    ensures Square(4, player.HomeY()) !in b.index ==> ParseMove("0-1", player, b) == Err(KeyError)
    ensures Square(4, player.HomeY()) in b.index ==> ParseMove("0-1", player, b) == Err(UnboundLocalError)
  {
    assert OccursAt("0-1", "0-", 0);
  }

  // ---------------------------------------------------------------------------
  // Source inference on two knights that both reach e5
  // ---------------------------------------------------------------------------

  /** The knight on f7. */
  function KnightF7(): Piece { Piece(Knight, White, Square(5, 6)) }

  /** The knight on d3. */
  function KnightD3(): Piece { Piece(Knight, White, Square(3, 2)) }

  /** The first two elements of a sequence are among its elements. */
  lemma FirstTwo<T>(s: seq<T>)
    requires |s| >= 2
    ensures s[0] in s && s[1] in s
  {
  }

  /** A sequence holding `a` and nothing else, without repeats, has length one. */
  lemma OnlyElement<T>(s: seq<T>, a: T)
    requires a in s && forall x :: x in s ==> x == a
    requires forall i, j :: 0 <= i < j < |s| ==> s[i] != s[j]
    ensures |s| == 1 && s[0] == a
  {
    assert s[0] in s;
    if |s| >= 2 {
      FirstTwo(s);
      assert false;
    }
  }

  /** The groups of a move text that is their own rendering are the ones the text holds, and the text is not taken for castling. */
  lemma LexOwnText(text: string, n: Notation)
    requires n.WellFormed() && Unlex(n) == text
    ensures Lex(text) == Some(n) && !Castles(text)
  {
    LexUnlex(n);
    UnlexNotCastling(n);
  }

  /** A knight reaches every on-board square a knight's jump away, whatever the board. */
  lemma KnightReaches(p: Piece, b: Board, t: Square)
    requires p.kind == Knight && p.position.WithinBoard() && t.WithinBoard()
    requires (Abs(t.x - p.position.x) == 2 && Abs(t.y - p.position.y) == 1) || (Abs(t.x - p.position.x) == 1 && Abs(t.y - p.position.y) == 2)
    ensures t in PieceMoves(p, b)
  {
    KnightMovesExact(p.position, t);
  }

  /** An on-board piece stands on a hinted file exactly when the file letter of its column is the hint. */
  lemma OnFileLetter(p: Piece, f: char)
    requires p.position.WithinBoard()
    ensures OnFile(p, Some(f)) <==> H.Files[p.position.x] == f
  {
    FileRankRoundTrip(p.position);
  }

  /** The target "e5" is the square (4, 4), and a knight letter names the Knight. */
  lemma KnightToE5(n: Notation)
    requires n.WellFormed() && n.letter == Some('N') && n.targetFile == 'e' && n.targetRank == '5'
    ensures Target(n) == Square(4, 4)
    ensures KindOfLetter(PieceId(n, White), White) == Ok(Knight)
  {
  }

  /** On a board holding just the knights on f7 and d3, both reach e5, so "Ne5" names no single source piece. */
  lemma AmbiguousKnights(b: Board)
    requires b.pieces == [KnightF7(), KnightD3()]
    ensures ParseMove("Ne5", White, b) == Err(AmbiguousMove("Source piece inference not possible", "Ne5"))
  {
    var n := Notation(None, None, Some('N'), 'e', '5');
    LexOwnText("Ne5", n);
    ParseInferred("Ne5", n, White, b);
    KnightToE5(n);
    BothKnightsCandidates(b);
  }

  /** Both knights are candidates for an unhinted knight move to e5, so there is not exactly one. */
  lemma BothKnightsCandidates(b: Board)
    requires b.pieces == [KnightF7(), KnightD3()]
    ensures |Candidates(b, Knight, White, Square(4, 4), None, None)| != 1
  {
    KnightFitsE5(b, KnightF7());
    KnightFitsE5(b, KnightD3());
    TwoFits(Candidates(b, Knight, White, Square(4, 4), None, None), q => Fits(q, b, Knight, White, Square(4, 4), None, None), KnightF7(), KnightD3());
  }

  /** Each of the two knights fits an unhinted knight move of White to e5. */
  lemma KnightFitsE5(b: Board, p: Piece)
    requires b.pieces == [KnightF7(), KnightD3()] && (p == KnightF7() || p == KnightD3())
    ensures Fits(p, b, Knight, White, Square(4, 4), None, None)
  {
    KnightReaches(p, b, Square(4, 4));
    assert p in b.pieces;
  }

  /** A sequence whose elements are exactly those passing a test, two different of which pass it, has not exactly one element. */
  lemma TwoFits<T>(s: seq<T>, test: T -> bool, a: T, c: T)
    requires forall x :: x in s <==> test(x)
    requires test(a) && test(c) && a != c
    ensures |s| != 1
  {
    assert a in s && c in s;
  }

  /** When the hints single out one piece of the mover that has the named kind and reaches the target, it is the only candidate. */
  lemma SingledOut(b: Board, kind: Kind, player: Color, target: Square, sf: Option<char>, sr: Option<char>, a: Piece)
    requires forall i, j :: 0 <= i < j < |b.pieces| ==> b.pieces[i] != b.pieces[j]
    requires a in b.pieces && a.kind.Letter() == kind.Letter() && a.color == player
    requires target in PieceMoves(a, b) && OnFile(a, sf) && OnRank(a, sr)
    requires forall q :: q in b.pieces && q != a ==> !(OnFile(q, sf) && OnRank(q, sr))
    ensures Candidates(b, kind, player, target, sf, sr) == [a]
  {
    assert Fits(a, b, kind, player, target, sf, sr);
    OnlyFitting(Candidates(b, kind, player, target, sf, sr), b, kind, player, target, sf, sr, a);
  }

  /** A repeat-free list of exactly the fitting pieces, where only `a` stands on the hinted file and rank, is `[a]`. */
  lemma OnlyFitting(cs: seq<Piece>, b: Board, kind: Kind, player: Color, target: Square, sf: Option<char>, sr: Option<char>, a: Piece)
    requires forall p :: p in cs <==> Fits(p, b, kind, player, target, sf, sr)
    requires forall i, j :: 0 <= i < j < |cs| ==> cs[i] != cs[j]
    requires Fits(a, b, kind, player, target, sf, sr)
    requires forall q :: q in b.pieces && q != a ==> !(OnFile(q, sf) && OnRank(q, sr))
    ensures cs == [a]
  {
    assert a in cs;
    forall x | x in cs ensures x == a {
      assert Fits(x, b, kind, player, target, sf, sr);
    }
    OnlyElement(cs, a);
  }

  /** The two knights are two different pieces, the only ones on the board. */
  lemma TwoKnightsDistinct(b: Board)
    requires b.pieces == [KnightF7(), KnightD3()]
    ensures forall i, j :: 0 <= i < j < |b.pieces| ==> b.pieces[i] != b.pieces[j]
    ensures forall q :: q in b.pieces ==> q == KnightF7() || q == KnightD3()
  {
  }

  /** The knight on f7 is the only one of the two on the f-file. */
  lemma FileHintSingles(b: Board)
    requires b.pieces == [KnightF7(), KnightD3()]
    ensures OnFile(KnightF7(), Some('f'))
    ensures forall q :: q in b.pieces && q != KnightF7() ==> !(OnFile(q, Some('f')) && OnRank(q, None))
  {
    OnFileLetter(KnightF7(), 'f');
    OnFileLetter(KnightD3(), 'f');
    TwoKnightsDistinct(b);
    forall q | q in b.pieces && q != KnightF7() ensures !OnFile(q, Some('f')) {
      assert q == KnightD3();
    }
  }

  /** The knight on d3 is the only one of the two on the third rank. */
  lemma RankHintSingles(b: Board)
    requires b.pieces == [KnightF7(), KnightD3()]
    ensures OnRank(KnightD3(), Some('3'))
    ensures forall q :: q in b.pieces && q != KnightD3() ==> !(OnFile(q, None) && OnRank(q, Some('3')))
  {
    TwoKnightsDistinct(b);
    forall q | q in b.pieces && q != KnightD3() ensures !OnRank(q, Some('3')) {
      assert q == KnightF7();
    }
  }

  /** Of the two knights only the one on f7 is a candidate for "fNe5". */
  lemma FileHintCandidates(b: Board)
    requires b.pieces == [KnightF7(), KnightD3()]
    ensures Candidates(b, Knight, White, Square(4, 4), Some('f'), None) == [KnightF7()]
  {
    FileHintSingles(b);
    KnightReaches(KnightF7(), b, Square(4, 4));
    TwoKnightsDistinct(b);
    SingledOut(b, Knight, White, Square(4, 4), Some('f'), None, KnightF7());
  }

  /** Of the two knights only the one on d3 is a candidate for "3Ne5". */
  lemma RankHintCandidates(b: Board)
    requires b.pieces == [KnightF7(), KnightD3()]
    ensures Candidates(b, Knight, White, Square(4, 4), None, Some('3')) == [KnightD3()]
  {
    RankHintSingles(b);
    KnightReaches(KnightD3(), b, Square(4, 4));
    TwoKnightsDistinct(b);
    SingledOut(b, Knight, White, Square(4, 4), None, Some('3'), KnightD3());
  }

  /** On that board the file hint of "fNe5" keeps only the knight on f7. */
  lemma FileHintKnights(b: Board)
    requires b.pieces == [KnightF7(), KnightD3()]
    ensures ParseMove("fNe5", White, b) == Ok((KnightF7(), Square(4, 4)))
  {
    var n := Notation(Some('f'), None, Some('N'), 'e', '5');
    LexOwnText("fNe5", n);
    ParseInferred("fNe5", n, White, b);
    KnightToE5(n);
    FileHintCandidates(b);
  }

  /**
    The hint filters as written fail on both hinted knight moves: each hint meets a knight
    that reaches e5 and raises AttributeError, although the hint singles out one knight.
    (The whole parse as written stops earlier, at the uncallable letter class; the filters
    are reached with the letter class and the letter lookup working as intended.)
   */
  lemma HintedKnightsAsWritten(b: Board)
    requires b.pieces == [KnightF7(), KnightD3()]
    ensures HintFilterAsWritten(b, Knight, White, Square(4, 4), Some('f'), None) == Err(AttributeError)
    ensures HintFilterAsWritten(b, Knight, White, Square(4, 4), None, Some('3')) == Err(AttributeError)
    ensures Candidates(b, Knight, White, Square(4, 4), Some('f'), None) == [KnightF7()]
    ensures Candidates(b, Knight, White, Square(4, 4), None, Some('3')) == [KnightD3()]
  {
    KnightFitsE5(b, KnightF7());
    SomeFit(Candidates(b, Knight, White, Square(4, 4), None, None), q => Fits(q, b, Knight, White, Square(4, 4), None, None), KnightF7());
    FileHintCandidates(b);
    RankHintCandidates(b);
  }

  /** A list holding exactly the values that pass a test, one of which passes it, is not empty. */
  lemma SomeFit<T>(s: seq<T>, test: T -> bool, a: T)
    requires forall x :: x in s <==> test(x)
    requires test(a)
    ensures |s| > 0
  {
    assert a in s;
  }

  /** On that board the rank hint of "3Ne5" keeps only the knight on d3. */
  lemma RankHintKnights(b: Board)
    requires b.pieces == [KnightF7(), KnightD3()]
    ensures ParseMove("3Ne5", White, b) == Ok((KnightD3(), Square(4, 4)))
  {
    var n := Notation(None, Some('3'), Some('N'), 'e', '5');
    LexOwnText("3Ne5", n);
    ParseInferred("3Ne5", n, White, b);
    KnightToE5(n);
    RankHintCandidates(b);
  }
}
