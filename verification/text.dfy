/**
 * String helpers with the semantics of the JavaScript and Python library calls
 * the modelled code uses: `String.prototype.trim`, `String.prototype.split`
 * with a one-character separator, Python's `str.strip()`, string concatenation
 * and decimal rendering of integers.
 */
module Text {

  /** Characters JavaScript's `trim` removes: WhiteSpace and LineTerminator of ECMA-262. */
  predicate IsJsSpace(c: char) {
    || c == '\t' || c == '\n' || c == '\U{000B}' || c == '\U{000C}' || c == '\r' || c == ' '
    || c == '\U{00A0}' || c == '\U{1680}' || ('\U{2000}' <= c <= '\U{200A}')
    || c == '\U{2028}' || c == '\U{2029}' || c == '\U{202F}' || c == '\U{205F}'
    || c == '\U{3000}' || c == '\U{FEFF}'
  }

  /** Characters for which Python's `str.isspace()` holds, the set `str.strip()` removes. */
  predicate IsPySpace(c: char) {
    || c == '\t' || c == '\n' || c == '\U{000B}' || c == '\U{000C}' || c == '\r'
    || ('\U{001C}' <= c <= '\U{001F}') || c == ' ' || c == '\U{0085}' || c == '\U{00A0}'
    || c == '\U{1680}' || ('\U{2000}' <= c <= '\U{200A}') || c == '\U{2028}' || c == '\U{2029}'
    || c == '\U{202F}' || c == '\U{205F}' || c == '\U{3000}'
  }

  /** Every character of `s` satisfies `p`. */
  predicate AllOf(s: string, p: char -> bool) {
    forall i :: 0 <= i < |s| ==> p(s[i])
  }

  /** `s` without its longest prefix of `p`-characters. */
  function TrimLeft(s: string, p: char -> bool): (r: string)
    ensures |r| <= |s| && r == s[|s| - |r|..]
    ensures AllOf(s[..|s| - |r|], p)
    ensures r == [] || !p(r[0])
  {
    if s == [] || !p(s[0]) then s else TrimLeft(s[1..], p)
  }

  /** `s` without its longest suffix of `p`-characters. */
  function TrimRight(s: string, p: char -> bool): (r: string)
    ensures |r| <= |s| && r == s[..|r|]
    ensures AllOf(s[|r|..], p)
    ensures r == [] || !p(r[|r| - 1])
  {
    if s == [] || !p(s[|s| - 1]) then s else TrimRight(s[..|s| - 1], p)
  }

  /** JavaScript `s.trim()`. */
  function JsTrim(s: string): string {
    TrimLeft(TrimRight(s, IsJsSpace), IsJsSpace)
  }

  /** Python `s.strip()`. */
  function PyStrip(s: string): string {
    TrimLeft(TrimRight(s, IsPySpace), IsPySpace)
  }

  /** Appending `p`-characters does not change what `TrimRight` keeps. */
  lemma {:induction false} TrimRightIgnoresTail(a: string, w: string, p: char -> bool)
    requires AllOf(w, p)
    ensures TrimRight(a + w, p) == TrimRight(a, p)
    decreases |w|
  {
    if w != [] {
      var w' := w[..|w| - 1];
      assert (a + w)[..|a + w| - 1] == a + w';
      assert (a + w)[|a + w| - 1] == w[|w| - 1];
      assert p(w[|w| - 1]);
      assert AllOf(w', p);
      TrimRightIgnoresTail(a, w', p);
    } else {
      assert a + w == a;
    }
  }

  /** `TrimLeft` of a concatenation: it eats into `y` only when `x` is all `p`-characters. */
  lemma {:induction false} TrimLeftConcat(x: string, y: string, p: char -> bool)
    ensures AllOf(x, p) ==> TrimLeft(x + y, p) == TrimLeft(y, p)
    ensures !AllOf(x, p) ==> TrimLeft(x + y, p) == TrimLeft(x, p) + y
    decreases |x|
  {
    if x != [] {
      assert (x + y)[0] == x[0];
      assert (x + y)[1..] == x[1..] + y;
      if p(x[0]) {
        assert AllOf(x, p) <==> AllOf(x[1..], p);
        TrimLeftConcat(x[1..], y, p);
      } else {
        assert !AllOf(x, p);
      }
    } else {
      assert x + y == y;
    }
  }

  /** Left-trimming a string that is not all `p`-characters keeps its last character. */
  lemma {:induction false} TrimLeftKeepsLast(s: string, p: char -> bool)
    requires !AllOf(s, p)
    ensures TrimLeft(s, p) != [] && TrimLeft(s, p)[|TrimLeft(s, p)| - 1] == s[|s| - 1]
    decreases |s|
  {
    if p(s[0]) {
      assert !AllOf(s[1..], p) by {
        var i :| 0 <= i < |s| && !p(s[i]);
        assert s[1..][i - 1] == s[i];
      }
      TrimLeftKeepsLast(s[1..], p);
    }
  }

  /** JavaScript `s.split(sep)`: the pieces between occurrences of `sep`; `""` splits to `[""]`. */
  function Split(s: string, sep: char): (parts: seq<string>)
    ensures |parts| >= 1
    ensures forall i :: 0 <= i < |parts| ==> sep !in parts[i]
    decreases |s|
  {
    if s == [] then [""]
    else if s[0] == sep then [""] + Split(s[1..], sep)
    else
      var rest := Split(s[1..], sep);
      [[s[0]] + rest[0]] + rest[1..]
  }

  /** JavaScript `parts.join(sep)` with a one-character separator. */
  function Join(parts: seq<string>, sep: char): string
    requires |parts| >= 1
  {
    if |parts| == 1 then parts[0] else parts[0] + [sep] + Join(parts[1..], sep)
  }

  /** Splitting and re-joining gives the original string back. */
  lemma {:induction false} JoinSplit(s: string, sep: char)
    ensures Join(Split(s, sep), sep) == s
    decreases |s|
  {
    if s != [] {
      JoinSplit(s[1..], sep);
      var rest := Split(s[1..], sep);
      if s[0] != sep {
        var parts := Split(s, sep);
        assert parts[1..] == rest[1..];
        if |rest| > 1 {
          assert parts[0] + [sep] + Join(parts[1..], sep) == [s[0]] + (rest[0] + [sep] + Join(rest[1..], sep));
        }
        assert Join(parts, sep) == [s[0]] + Join(rest, sep);
      } else {
        assert Split(s, sep)[1..] == rest;
      }
    }
  }

  /** A string free of the separator splits into itself alone. */
  lemma {:induction false} SplitNoSeparator(s: string, sep: char)
    requires sep !in s
    ensures Split(s, sep) == [s]
    decreases |s|
  {
    if s != [] {
      assert sep !in s[1..] by {
        forall i | 0 <= i < |s[1..]| ensures s[1..][i] != sep { assert s[1..][i] == s[i + 1]; }
      }
      SplitNoSeparator(s[1..], sep);
      assert [s[0]] + s[1..] == s;
    }
  }

  /** Splitting at a separator occurrence concatenates the two sides' pieces. */
  lemma {:induction false} SplitAtSeparator(a: string, b: string, sep: char)
    ensures Split(a + [sep] + b, sep) == Split(a, sep) + Split(b, sep)
    decreases |a|
  {
    var s := a + [sep] + b;
    if a == [] {
      assert s[0] == sep && s[1..] == b;
    } else {
      assert s[0] == a[0] && s[1..] == a[1..] + [sep] + b;
      SplitAtSeparator(a[1..], b, sep);
    }
  }

  /** Joining separator-free pieces and splitting again gives the pieces back. */
  lemma {:induction false} SplitJoin(parts: seq<string>, sep: char)
    requires |parts| >= 1
    requires forall i :: 0 <= i < |parts| ==> sep !in parts[i]
    ensures Split(Join(parts, sep), sep) == parts
    decreases |parts|
  {
    SplitNoSeparator(parts[0], sep);
    if |parts| > 1 {
      SplitJoin(parts[1..], sep);
      SplitAtSeparator(parts[0], Join(parts[1..], sep), sep);
      assert [parts[0]] + parts[1..] == parts;
    }
  }

  /** Two separator-free pieces joined by one separator split back into those two. */
  lemma TwoPieces(a: string, b: string, sep: char)
    requires sep !in a && sep !in b
    ensures Split(a + [sep] + b, sep) == [a, b]
  {
    SplitAtSeparator(a, b, sep);
    SplitNoSeparator(a, sep);
    SplitNoSeparator(b, sep);
  }

  /** The last piece of `s.split(sep)`. */
  function LastPiece(s: string, sep: char): (r: string)
    ensures sep !in r
  {
    var parts := Split(s, sep);
    parts[|parts| - 1]
  }

  /** Whatever precedes the last separator does not affect the last piece. */
  lemma LastPieceAfterSeparator(a: string, b: string, sep: char)
    requires sep !in b
    ensures LastPiece(a + [sep] + b, sep) == b
  {
    SplitAtSeparator(a, b, sep);
    SplitNoSeparator(b, sep);
  }

  /** The in-order concatenation of `chunks` (repeated `+=` onto `""`). */
  function Concat(chunks: seq<string>): string {
    if chunks == [] then "" else Concat(chunks[..|chunks| - 1]) + chunks[|chunks| - 1]
  }

  /** Concatenation distributes over joining chunk lists. */
  lemma {:induction false} ConcatAppend(a: seq<string>, b: seq<string>)
    ensures Concat(a + b) == Concat(a) + Concat(b)
    decreases |b|
  {
    if b == [] {
      assert a + b == a;
    } else {
      assert (a + b)[..|a + b| - 1] == a + b[..|b| - 1];
      ConcatAppend(a, b[..|b| - 1]);
    }
  }

  /** A decimal digit character. */
  function Digit(d: nat): char
    requires d < 10
  {
    "0123456789"[d]
  }

  /** Decimal rendering of a natural number, as JavaScript and Python print it. */
  function NatToString(n: nat): (r: string)
    ensures |r| >= 1
    ensures forall i :: 0 <= i < |r| ==> '0' <= r[i] <= '9'
    ensures |r| > 1 ==> r[0] != '0'
  {
    if n < 10 then [Digit(n)] else NatToString(n / 10) + [Digit(n % 10)]
  }

  /** Decimal rendering of an integer with a leading `-` for negatives. */
  function IntToString(n: int): string {
    if n < 0 then "-" + NatToString(-n) else NatToString(n)
  }
}
