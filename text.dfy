/**
 * The string operations the stream decoder uses, written out: `split("\n")`
 * and its inverse `join("\n")`, `startsWith`, `trim` with JavaScript's
 * whitespace set, and the decimal rendering of a number in a template string.
 */
module Text {
  import opened Wrappers

  const Newline: char := '\n'

  /** `s.split("\n")`: the maximal newline-free segments of `s`, always at least one. */
  function SplitLines(s: string): (r: seq<string>)
    ensures |r| >= 1
    ensures forall i :: 0 <= i < |r| ==> Newline !in r[i]
  {
    if s == [] then [[]]
    else if s[0] == Newline then [[]] + SplitLines(s[1..])
    else
      var t := SplitLines(s[1..]);
      [[s[0]] + t[0]] + t[1..]
  }

  /** `lines.join("\n")`. */
  function JoinLines(lines: seq<string>): string
  {
    if |lines| == 0 then []
    else if |lines| == 1 then lines[0]
    else lines[0] + [Newline] + JoinLines(lines[1..])
  }

  /** Joining the segments of a split gives back the string. */
  lemma {:induction false} JoinSplit(s: string)
    ensures JoinLines(SplitLines(s)) == s
  {
    if s != [] {
      JoinSplit(s[1..]);
      var t := SplitLines(s[1..]);
      if s[0] == Newline {
        assert SplitLines(s) == [[]] + t;
        assert ([[]] + t)[1..] == t;
      } else if |t| == 1 {
        assert SplitLines(s) == [[s[0]] + t[0]];
      } else {
        assert SplitLines(s) == [[s[0]] + t[0]] + t[1..];
        assert ([[s[0]] + t[0]] + t[1..])[1..] == t[1..];
        assert JoinLines(t) == t[0] + [Newline] + JoinLines(t[1..]);
      }
    }
  }

  /** A newline-free string is its own single segment. */
  lemma {:induction false} SplitNoNewline(s: string)
    requires Newline !in s
    ensures SplitLines(s) == [s]
  {
    if s != [] {
      assert Newline !in s[1..] by {
        forall k | 0 <= k < |s[1..]| ensures s[1..][k] != Newline { assert s[1..][k] == s[k + 1]; }
      }
      SplitNoNewline(s[1..]);
      assert [s[0]] + s[1..] == s;
    }
  }

  /** One character in front of a text: a newline opens a new segment, any other character joins the first. */
  lemma SplitCons(c: char, t: string)
    ensures SplitLines([c] + t)
         == if c == Newline then [[]] + SplitLines(t) else [[c] + SplitLines(t)[0]] + SplitLines(t)[1..]
  {
    assert ([c] + t)[0] == c && ([c] + t)[1..] == t;
  }

  /** Gluing commutes with opening a new empty segment in front. */
  lemma GlueAfterEmpty(s: seq<string>, h: string, t: seq<string>)
    requires |s| >= 1
    ensures var sx := [[]] + s;
      [[]] + (AllButLast(s) + [Last(s) + h] + t) == AllButLast(sx) + [Last(sx) + h] + t
  {
    var sx := [[]] + s;
    assert AllButLast(sx) == [[]] + AllButLast(s);
  }

  /** Gluing commutes with putting a character in front of the first segment. */
  lemma GlueAfterChar(c: char, s: seq<string>, h: string, t: seq<string>)
    requires |s| >= 1
    ensures var r := AllButLast(s) + [Last(s) + h] + t;
      var sx := [[c] + s[0]] + s[1..];
      [[c] + r[0]] + r[1..] == AllButLast(sx) + [Last(sx) + h] + t
  {
    var r := AllButLast(s) + [Last(s) + h] + t;
    var sx := [[c] + s[0]] + s[1..];
    if |s| == 1 {
      assert r == [s[0] + h] + t;
      assert sx == [[c] + s[0]];
      assert [c] + (s[0] + h) == ([c] + s[0]) + h;
    } else {
      assert r[0] == s[0];
      assert r[1..] == AllButLast(s)[1..] + [Last(s) + h] + t;
      assert AllButLast(sx) == [[c] + s[0]] + AllButLast(s)[1..];
    }
  }

  /**
   * How a split of a concatenation decomposes: the last segment of `x` is
   * glued to the first segment of `y`; all other segments are unchanged.
   */
  lemma {:induction false} SplitAppend(x: string, y: string)
    ensures SplitLines(x + y)
         == AllButLast(SplitLines(x)) + [Last(SplitLines(x)) + SplitLines(y)[0]] + SplitLines(y)[1..]
  {
    var sy := SplitLines(y);
    if x == [] {
      assert x + y == y;
      assert SplitLines(x) == [[]];
      assert [] + sy[0] == sy[0];
      assert [sy[0]] + sy[1..] == sy;
    } else {
      var c, rest := x[0], x[1..];
      assert x == [c] + rest;
      assert x + y == [c] + (rest + y);
      SplitAppend(rest, y);
      SplitCons(c, rest);
      SplitCons(c, rest + y);
      if c == Newline {
        GlueAfterEmpty(SplitLines(rest), sy[0], sy[1..]);
      } else {
        GlueAfterChar(c, SplitLines(rest), sy[0], sy[1..]);
      }
    }
  }

  /** Splitting a text with a newline-free head: the head is glued to the first segment of the rest. */
  lemma {:induction false} SplitAfterHead(l: string, y: string)
    requires Newline !in l
    ensures SplitLines(l + y) == [l + SplitLines(y)[0]] + SplitLines(y)[1..]
  {
    var sy := SplitLines(y);
    if l == [] {
      assert l + y == y && l + sy[0] == sy[0];
      assert [sy[0]] + sy[1..] == sy;
    } else {
      var c, rest := l[0], l[1..];
      assert l == [c] + rest;
      assert Newline !in rest by {
        forall k | 0 <= k < |rest| ensures rest[k] != Newline { assert rest[k] == l[k + 1]; }
      }
      assert l + y == [c] + (rest + y);
      SplitAfterHead(rest, y);
      SplitCons(c, rest + y);
      assert [c] + (rest + sy[0]) == l + sy[0];
    }
  }

  /** Splitting a join of newline-free lines gives back the lines. */
  lemma {:induction false} SplitJoin(lines: seq<string>)
    requires |lines| >= 1
    requires forall i :: 0 <= i < |lines| ==> Newline !in lines[i]
    ensures SplitLines(JoinLines(lines)) == lines
  {
    if |lines| == 1 {
      SplitNoNewline(lines[0]);
    } else {
      var rest := lines[1..];
      SplitJoin(rest);
      var tail := [Newline] + JoinLines(rest);
      SplitCons(Newline, JoinLines(rest));
      assert SplitLines(tail) == [[]] + rest;
      assert JoinLines(lines) == lines[0] + tail;
      SplitAfterHead(lines[0], tail);
      assert lines[0] + [] == lines[0];
      assert [lines[0]] + rest == lines;
    }
  }

  predicate StartsWith(s: string, prefix: string) {
    |prefix| <= |s| && s[..|prefix|] == prefix
  }

  /** The characters `String.prototype.trim` removes: ECMAScript WhiteSpace and LineTerminator. */
  predicate IsWhitespace(c: char) {
    c == '\t' || c == '\n' || c == '\U{B}' || c == '\U{C}' || c == '\r' || c == ' '
    || c == '\U{A0}' || c == '\U{1680}' || ('\U{2000}' <= c <= '\U{200A}')
    || c == '\U{2028}' || c == '\U{2029}' || c == '\U{202F}' || c == '\U{205F}'
    || c == '\U{3000}' || c == '\U{FEFF}'
  }

  predicate AllWhitespace(s: string) {
    forall k :: 0 <= k < |s| ==> IsWhitespace(s[k])
  }

  /** The number of whitespace characters `s` starts with. */
  function LeadingWhitespace(s: string): (n: nat)
    ensures n <= |s| && AllWhitespace(s[..n])
    ensures n < |s| ==> !IsWhitespace(s[n])
  {
    if s != [] && IsWhitespace(s[0]) then
      var m := LeadingWhitespace(s[1..]);
      assert s[..m + 1] == [s[0]] + s[1..][..m];
      m + 1
    else 0
  }

  /** The number of whitespace characters `s` ends with. */
  function TrailingWhitespace(s: string): (n: nat)
    ensures n <= |s| && AllWhitespace(s[|s| - n..])
    ensures n < |s| ==> !IsWhitespace(s[|s| - n - 1])
  {
    if s != [] && IsWhitespace(s[|s| - 1]) then
      var t := s[..|s| - 1];
      var m := TrailingWhitespace(t);
      WhitespaceSuffixGrows(s, m);
      m + 1
    else 0
  }

  lemma WhitespaceSuffixGrows(s: string, m: nat)
    requires |s| > 0 && m < |s| && IsWhitespace(s[|s| - 1])
    requires AllWhitespace(s[..|s| - 1][|s| - 1 - m..])
    ensures AllWhitespace(s[|s| - (m + 1)..])
  {
    var u := s[|s| - (m + 1)..];
    var v := s[..|s| - 1][|s| - 1 - m..];
    assert u == v + [s[|s| - 1]];
    forall k | 0 <= k < |u| ensures IsWhitespace(u[k]) {
      if k < m { assert u[k] == v[k]; }
    }
  }

  /**
   * `s.trim()`: the infix of `s` left after removing whitespace at both
   * ends; everything removed is whitespace, what is kept neither starts nor
   * ends with it, and it is empty exactly when `s` is all whitespace.
   */
  function Trim(s: string): (r: string)
    ensures exists i :: 0 <= i <= |s| - |r| && r == s[i..i + |r|] && AllWhitespace(s[..i]) && AllWhitespace(s[i + |r|..])
    ensures r != [] ==> !IsWhitespace(r[0]) && !IsWhitespace(r[|r| - 1])
    ensures r == [] <==> AllWhitespace(s)
  {
    var i := LeadingWhitespace(s);
    var j := TrailingWhitespace(s[i..]);
    var r := s[i..|s| - j];
    assert s[i..][|s[i..]| - j..] == s[|s| - j..];
    assert r == [] ==> i == |s| by {
      if i < |s| { assert j < |s[i..]|; }
    }
    assert r == [] ==> s[..i] == s;
    assert r != [] ==> r[0] == s[i] && r[|r| - 1] == s[i..][|s[i..]| - j - 1];
    r
  }

  function DigitChar(d: nat): char
    requires d < 10
  {
    ('0' as int + d) as char
  }

  /** The decimal rendering of a non-negative integer, as `${n}` produces it. */
  function NatToString(n: nat): (r: string)
    ensures 1 <= |r|
    ensures forall k :: 0 <= k < |r| ==> '0' <= r[k] <= '9'
    ensures n >= 10 <==> |r| >= 2
  {
    if n < 10 then [DigitChar(n)] else NatToString(n / 10) + [DigitChar(n % 10)]
  }

  /** The number a string of decimal digits denotes, most significant digit first. */
  function DigitsValue(s: string): nat
    requires forall k :: 0 <= k < |s| ==> '0' <= s[k] <= '9'
  {
    if s == [] then 0
    else DigitsValue(s[..|s| - 1]) * 10 + (s[|s| - 1] as int - '0' as int)
  }

  /** The rendering denotes the number, and has no leading zero. */
  lemma {:induction false} NatToStringValue(n: nat)
    ensures DigitsValue(NatToString(n)) == n
    ensures n >= 10 ==> NatToString(n)[0] != '0'
  {
    var r := NatToString(n);
    if n >= 10 {
      NatToStringValue(n / 10);
      assert r[..|r| - 1] == NatToString(n / 10);
      assert r[0] == NatToString(n / 10)[0];
    }
  }

  /** Distinct numbers render as distinct strings. */
  lemma NatToStringInjective(a: nat, b: nat)
    requires NatToString(a) == NatToString(b)
    ensures a == b
  {
    NatToStringValue(a);
    NatToStringValue(b);
  }
}
