/**
  The few Python built-ins the chess kernel relies on, stated once so that every module
  uses the same meaning: `str.index`, `str(int)`, `int(digit)`, ASCII `upper`/`lower`,
  `filter` and `str.split(sep)`.
 */
module Builtins {
  import opened Errors

  /** `sub` occurs in `hay` starting at position `i`. */
  predicate OccursAt(hay: string, sub: string, i: int)
  {
    0 <= i && i + |sub| <= |hay| && hay[i..i + |sub|] == sub
  }

  /** The lowest position at or after `i` where `sub` occurs in `hay`. */
  function IndexFrom(hay: string, sub: string, i: nat): (r: Option<nat>)
    decreases |hay| + 1 - i
    ensures r.Some? ==> i <= r.value && OccursAt(hay, sub, r.value)
    ensures r.Some? ==> forall j :: i <= j < r.value ==> !OccursAt(hay, sub, j)
    ensures r.None? ==> forall j :: i <= j ==> !OccursAt(hay, sub, j)
  {
    if i + |sub| > |hay| then None
    else if hay[i..i + |sub|] == sub then Some(i)
    else IndexFrom(hay, sub, i + 1)
  }

  /** Python's `hay.index(sub)`: the lowest position of `sub` in `hay`; `None` stands for the ValueError. */
  function Index(hay: string, sub: string): (r: Option<nat>)
    ensures r.Some? ==> OccursAt(hay, sub, r.value) && forall j :: 0 <= j < r.value ==> !OccursAt(hay, sub, j)
    ensures r.None? ==> forall j :: !OccursAt(hay, sub, j)
  {
    IndexFrom(hay, sub, 0)
  }

  /** For a one-character needle `str.index` finds its first occurrence and fails on a character the text lacks. */
  lemma IndexOfChar(hay: string, c: char)
    ensures Index(hay, [c]).Some? ==> c in hay
    ensures forall i :: 0 <= i < |hay| && hay[i] == c && (forall j :: 0 <= j < i ==> hay[j] != c) ==> Index(hay, [c]) == Some(i)
  {
    if Index(hay, [c]).Some? {
      var k := Index(hay, [c]).value;
      assert hay[k..k + 1] == [c];
      assert hay[k] == c;
    }
    forall i | 0 <= i < |hay| && hay[i] == c && (forall j :: 0 <= j < i ==> hay[j] != c)
      ensures Index(hay, [c]) == Some(i)
    {
      assert hay[i..i + 1] == [c];
      assert OccursAt(hay, [c], i);
      var r := Index(hay, [c]);
      assert hay[r.value..r.value + 1] == [c];
      assert hay[r.value] == c;
    }
  }

  function DigitChar(d: nat): (c: char)
    requires d < 10
    ensures '0' <= c <= '9'
  {
    ('0' as int + d) as char
  }

  /** `int(c)` for one decimal digit. */
  function DigitValue(c: char): (d: nat)
    requires '0' <= c <= '9'
    ensures d < 10 && DigitChar(d) == c
  {
    c as int - '0' as int
  }

  /** The decimal digits of a natural number, most significant first. */
  function Digits(n: nat): (r: string)
    ensures 1 <= |r|
    ensures forall k :: 0 <= k < |r| ==> '0' <= r[k] <= '9'
    ensures n < 10 ==> r == [DigitChar(n)]
  {
    if n < 10 then [DigitChar(n)] else Digits(n / 10) + [DigitChar(n % 10)]
  }

  /** Python's `str(n)` for an integer. */
  function Decimal(n: int): (r: string)
    ensures 1 <= |r|
    ensures forall k :: 0 <= k < |r| ==> r[k] == '-' || '0' <= r[k] <= '9'
    ensures 0 <= n < 10 ==> r == [DigitChar(n)]
  {
    if n < 0 then "-" + Digits(-n) else Digits(n)
  }

  /** Python's `c.upper()` on ASCII letters. */
  function Upper(c: char): (r: char)
    ensures 'a' <= c <= 'z' ==> 'A' <= r <= 'Z' && r as int == c as int - 32
    ensures !('a' <= c <= 'z') ==> r == c
  {
    if 'a' <= c <= 'z' then (c as int - 32) as char else c
  }

  /** Python's `c.lower()` on ASCII letters. */
  function Lower(c: char): (r: char)
    ensures 'A' <= c <= 'Z' ==> 'a' <= r <= 'z' && Upper(r) == c
    ensures !('A' <= c <= 'Z') ==> r == c
  {
    if 'A' <= c <= 'Z' then (c as int + 32) as char else c
  }

  /** Python's `list(filter(f, s))`: the elements of `s` that satisfy `f`, in order. */
  function Filter<T(!new)>(f: T -> bool, s: seq<T>): (r: seq<T>)
    ensures |r| <= |s|
    ensures forall x :: x in r <==> x in s && f(x)
    ensures (forall i, j :: 0 <= i < j < |s| ==> s[i] != s[j]) ==> forall i, j :: 0 <= i < j < |r| ==> r[i] != r[j]
  {
    if s == [] then []
    else if f(s[0]) then [s[0]] + Filter(f, s[1..])
    else Filter(f, s[1..])
  }

  /** Python's `s.split(sep)`: the pieces between separators, empty pieces included. */
  function Split(s: string, sep: char): (r: seq<string>)
    ensures 1 <= |r|
  {
    if s == [] then [""]
    else if s[0] == sep then [""] + Split(s[1..], sep)
    else
      var rest := Split(s[1..], sep);
      [[s[0]] + rest[0]] + rest[1..]
  }

  /** A piece free of the separator splits off as one element. */
  lemma {:induction false} SplitPrefix(w: string, sep: char, t: string)
    requires sep !in w
    ensures Split(w + [sep] + t, sep) == [w] + Split(t, sep)
  {
    if w == [] {
      assert w + [sep] + t == [sep] + t;
    } else {
      assert (w + [sep] + t)[1..] == w[1..] + [sep] + t;
      SplitPrefix(w[1..], sep, t);
      assert [w[0]] + w[1..] == w;
    }
  }

  /** Text free of the separator does not split at all. */
  lemma {:induction false} SplitNone(w: string, sep: char)
    requires sep !in w
    ensures Split(w, sep) == [w]
  {
    if w != [] {
      SplitNone(w[1..], sep);
      assert [w[0]] + w[1..] == w;
    }
  }
}
