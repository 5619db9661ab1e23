/**
 * The string operations of JavaScript and Python that the dashboard applies
 * to station data: decimal digits, parseInt, zero padding, slicing,
 * splitting on a character, trimming whitespace and case mapping.
 */
module Text {
  import opened Common

  predicate IsDigit(c: char) { '0' <= c <= '9' }

  function DigitValue(c: char): int
    requires IsDigit(c)
  {
    c as int - '0' as int
  }

  function DigitChar(v: int): char
    requires 0 <= v < 10
  {
    ('0' as int + v) as char
  }

  predicate AllDigits(s: string)
  {
    forall i :: 0 <= i < |s| ==> IsDigit(s[i])
  }

  /** The value of a run of decimal digits, most significant first. */
  function DigitsValue(s: string): nat
    requires AllDigits(s)
  {
    if s == [] then 0 else 10 * DigitsValue(s[..|s| - 1]) + DigitValue(s[|s| - 1])
  }

  function Pow10(w: nat): nat
  {
    if w == 0 then 1 else 10 * Pow10(w - 1)
  }

  /** n written with exactly w digits, zero padded on the left (as `%02d`, padStart). */
  function PadDigits(n: nat, w: nat): (r: string)
    ensures |r| == w && AllDigits(r)
  {
    if w == 0 then [] else PadDigits(n / 10, w - 1) + [DigitChar(n % 10)]
  }

  /** Reading back the digits PadDigits writes returns the number, when it fits. */
  lemma {:induction false} PadDigitsValue(n: nat, w: nat)
    requires n < Pow10(w)
    ensures DigitsValue(PadDigits(n, w)) == n
    decreases w
  {
    if w > 0 {
      PadDigitsValue(n / 10, w - 1);
      var r := PadDigits(n, w);
      assert r[..w - 1] == PadDigits(n / 10, w - 1);
    }
  }

  /** Writing a digit run back at its own width reproduces it. */
  lemma {:induction false} DigitsRoundTrip(s: string)
    requires AllDigits(s)
    ensures DigitsValue(s) < Pow10(|s|)
    ensures PadDigits(DigitsValue(s), |s|) == s
    decreases |s|
  {
    if s != [] {
      var init := s[..|s| - 1];
      DigitsRoundTrip(init);
      var v := DigitsValue(s);
      assert v / 10 == DigitsValue(init) && v % 10 == DigitValue(s[|s| - 1]);
      assert s == init + [s[|s| - 1]];
    }
  }

  /** The white space JavaScript's trim and parseInt skip (WhiteSpace and LineTerminator). */
  predicate IsJsSpace(c: char)
  {
    ('\t' <= c <= '\r') || c == ' ' || c == '\U{A0}' || c == '\U{1680}'
    || ('\U{2000}' <= c <= '\U{200A}') || c == '\U{2028}' || c == '\U{2029}'
    || c == '\U{202F}' || c == '\U{205F}' || c == '\U{3000}' || c == '\U{FEFF}'
  }

  /** The characters Python's str.isspace accepts, which str.strip() removes. */
  predicate IsPySpace(c: char)
  {
    ('\t' <= c <= '\r') || ('\U{1C}' <= c <= ' ') || c == '\U{85}' || c == '\U{A0}'
    || c == '\U{1680}' || ('\U{2000}' <= c <= '\U{200A}') || c == '\U{2028}' || c == '\U{2029}'
    || c == '\U{202F}' || c == '\U{205F}' || c == '\U{3000}'
  }

  /** s without its leading space characters. */
  function TrimStart(s: string, space: char -> bool): (r: string)
    ensures |r| <= |s|
  {
    if s != [] && space(s[0]) then TrimStart(s[1..], space) else s
  }

  /** s without its trailing space characters. */
  function TrimEnd(s: string, space: char -> bool): (r: string)
    ensures |r| <= |s|
  {
    if s != [] && space(s[|s| - 1]) then TrimEnd(s[..|s| - 1], space) else s
  }

  /** White space removed at both ends. */
  function Trim(s: string, space: char -> bool): (r: string)
  {
    TrimEnd(TrimStart(s, space), space)
  }

  lemma {:induction false} TrimStartShape(s: string, space: char -> bool)
    ensures var r := TrimStart(s, space);
      r == s[|s| - |r|..] && (r != [] ==> !space(r[0])) && forall i :: 0 <= i < |s| - |r| ==> space(s[i])
    decreases |s|
  {
    if s != [] && space(s[0]) {
      TrimStartShape(s[1..], space);
    }
  }

  lemma {:induction false} TrimEndShape(s: string, space: char -> bool)
    ensures var r := TrimEnd(s, space);
      r == s[..|r|] && (r != [] ==> !space(r[|r| - 1])) && forall i :: |r| <= i < |s| ==> space(s[i])
    decreases |s|
  {
    if s != [] && space(s[|s| - 1]) {
      TrimEndShape(s[..|s| - 1], space);
    }
  }

  /** Trim leaves the slice of s between its leading and its trailing space characters. */
  lemma {:induction false} TrimShape(s: string, space: char -> bool)
    ensures var r := Trim(s, space); var lead := |s| - |TrimStart(s, space)|;
      lead + |r| <= |s| && r == s[lead..lead + |r|]
      && (forall j :: 0 <= j < lead ==> space(s[j]))
      && (forall j :: lead + |r| <= j < |s| ==> space(s[j]))
      && (r != [] ==> !space(r[0]) && !space(r[|r| - 1]))
  {
    TrimStartShape(s, space);
    TrimEndShape(TrimStart(s, space), space);
  }

  /** JavaScript's String.prototype.trim. */
  function TrimJs(s: string): string { Trim(s, IsJsSpace) }

  /** Python's str.strip() with no argument. */
  function StripPy(s: string): string { Trim(s, IsPySpace) }

  /**
   * JavaScript's String.prototype.slice(a, b) for non-negative a and b:
   * both ends are clamped to the length, and an empty string results when a >= b.
   */
  function Slice(s: string, a: nat, b: nat): (r: string)
    ensures |r| <= |s|
    ensures a <= b <= |s| ==> r == s[a..b]
  {
    var lo := if a < |s| then a else |s|;
    var hi := if b < |s| then b else |s|;
    if lo < hi then s[lo..hi] else []
  }

  /**
   * JavaScript's parseInt(s, 10): leading white space is skipped, then an
   * optional sign, then the longest run of digits; no digit at all is NaN.
   */
  function ParseInt(s: string): (r: Option<int>)
    ensures AllDigits(s) && s != [] ==> r == Some(DigitsValue(s))
  {
    if s != [] && IsJsSpace(s[0]) then ParseInt(s[1..])
    else if s != [] && (s[0] == '-' || s[0] == '+') then
      if |s| > 1 && IsDigit(s[1]) then
        Some(if s[0] == '-' then -(DigitsFrom(s[1..], 0) as int) else DigitsFrom(s[1..], 0))
      else None
    else if s != [] && IsDigit(s[0]) then
      assert AllDigits(s) ==> DigitsFrom(s, 0) == DigitsValue(s) by {
        if AllDigits(s) {
          assert [] + s == s;
          DigitsFromPrefix([], s);
        }
      }
      Some(DigitsFrom(s, 0))
    else None
  }

  /** The number written by acc's digits followed by the run of digits at the start of u. */
  function DigitsFrom(u: string, acc: nat): nat
  {
    if u != [] && IsDigit(u[0]) then DigitsFrom(u[1..], 10 * acc + DigitValue(u[0])) else acc
  }

  /** Reading the digits of u after those of p gives the value of p followed by u. */
  lemma {:induction false} DigitsFromPrefix(p: string, u: string)
    requires AllDigits(p) && AllDigits(u)
    ensures DigitsFrom(u, DigitsValue(p)) == DigitsValue(p + u)
    decreases |u|
  {
    if u == [] {
      assert p + u == p;
    } else {
      var q := p + [u[0]];
      assert q[..|q| - 1] == p;
      DigitsFromPrefix(q, u[1..]);
      assert q + u[1..] == p + u;
    }
  }

  /**
   * JavaScript's s.split(c) for a one-character separator c: the pieces
   * between occurrences of c, an empty piece wherever two are adjacent.
   */
  function Split(s: string, c: char): (parts: seq<string>)
    ensures |parts| >= 1
    ensures forall i :: 0 <= i < |parts| ==> c !in parts[i]
  {
    if s == [] then [""]
    else
      var rest := Split(s[1..], c);
      if s[0] == c then [""] + rest
      else [[s[0]] + rest[0]] + rest[1..]
  }

  /** The pieces joined back together with the separator. */
  function Join(parts: seq<string>, c: char): string
  {
    if parts == [] then [] else if |parts| == 1 then parts[0] else parts[0] + [c] + Join(parts[1..], c)
  }

  /** Splitting loses nothing: joining the pieces with the separator gives the string back. */
  lemma {:induction false} SplitJoin(s: string, c: char)
    ensures Join(Split(s, c), c) == s
    decreases |s|
  {
    if s != [] {
      SplitJoin(s[1..], c);
      var rest := Split(s[1..], c);
      if s[0] != c {
        if |rest| > 1 {
          assert ([[s[0]] + rest[0]] + rest[1..])[1..] == rest[1..];
        }
      }
    }
  }

  /** The first piece of a split is the text before the first separator. */
  lemma {:induction false} SplitHead(s: string, c: char)
    ensures |Split(s, c)[0]| <= |s|
    ensures Split(s, c)[0] == s[..|Split(s, c)[0]|]
    ensures |Split(s, c)[0]| < |s| ==> s[|Split(s, c)[0]|] == c
    ensures |Split(s, c)[0]| == |s| <==> c !in s
    decreases |s|
  {
    if s != [] {
      SplitHead(s[1..], c);
    }
  }

  /** A string without the separator splits into itself alone. */
  lemma {:induction false} SplitNone(s: string, c: char)
    requires c !in s
    ensures Split(s, c) == [s]
    decreases |s|
  {
    if s != [] {
      assert c !in s[1..];
      SplitNone(s[1..], c);
      assert [s[0]] + s[1..] == s;
    }
  }

  /** The first separator ends the first piece. */
  lemma {:induction false} SplitAt(p: string, c: char, q: string)
    requires c !in p
    ensures Split(p + [c] + q, c) == [p] + Split(q, c)
    decreases |p|
  {
    var s := p + [c] + q;
    if p == [] {
      assert s[1..] == q;
    } else {
      assert s[1..] == p[1..] + [c] + q;
      assert c !in p[1..];
      SplitAt(p[1..], c, q);
      assert [p[0]] + p[1..] == p;
    }
  }

  /** A split has more than one piece exactly when the separator occurs. */
  lemma {:induction false} SplitMany(s: string, c: char)
    ensures |Split(s, c)| >= 2 <==> c in s
  {
    SplitHead(s, c);
    if c in s {
      var k := |Split(s, c)[0]|;
      assert s == s[..k] + [c] + s[k + 1..];
      SplitAt(s[..k], c, s[k + 1..]);
    } else {
      SplitNone(s, c);
    }
  }

  /** The index of the last occurrence of c in s, or -1 (String.prototype.lastIndexOf). */
  function LastIndexOf(s: string, c: char): (r: int)
    ensures -1 <= r < |s|
    ensures r >= 0 ==> s[r] == c
    ensures forall i :: r < i < |s| ==> s[i] != c
  {
    if s == [] then -1
    else if s[|s| - 1] == c then |s| - 1
    else LastIndexOf(s[..|s| - 1], c)
  }

  predicate EndsWith(s: string, suffix: string)
  {
    |suffix| <= |s| && s[|s| - |suffix|..] == suffix
  }

  /**
   * toLowerCase on one character, for ASCII and Latin-1 letters (the
   * characters of file names and Brazilian place names).
   */
  function LowerChar(c: char): char
  {
    if 'A' <= c <= 'Z' || ('\U{C0}' <= c <= '\U{DE}' && c != '\U{D7}') then (c as int + 32) as char
    else c
  }

  function ToLower(s: string): (r: string)
    ensures |r| == |s|
    ensures forall i :: 0 <= i < |s| ==> r[i] == LowerChar(s[i])
  {
    if s == [] then [] else [LowerChar(s[0])] + ToLower(s[1..])
  }

  /**
   * toUpperCase on one character, for ASCII and Latin-1 letters: a-z and
   * the accented lower-case letters move down by 32, y with diaeresis
   * becomes U+0178, the micro sign becomes capital mu, sharp s becomes "SS".
   */
  function UpperText(c: char): string
  {
    if 'a' <= c <= 'z' || ('\U{E0}' <= c <= '\U{FE}' && c != '\U{F7}') then [(c as int - 32) as char]
    else if c == '\U{FF}' then ['\U{178}']
    else if c == '\U{B5}' then ['\U{39C}']
    else if c == '\U{DF}' then "SS"
    else [c]
  }

  function ToUpper(s: string): string
  {
    if s == [] then [] else UpperText(s[0]) + ToUpper(s[1..])
  }

  /** Upper-casing strings that are already upper case changes nothing. */
  lemma {:induction false} ToUpperIdempotent(s: string)
    ensures ToUpper(ToUpper(s)) == ToUpper(s)
    decreases |s|
  {
    if s != [] {
      ToUpperIdempotent(s[1..]);
      ToUpperAppend(UpperText(s[0]), ToUpper(s[1..]));
      var u := UpperText(s[0]);
      if |u| == 2 {
        assert u == ['S'] + ['S'];
        ToUpperAppend(['S'], ['S']);
      }
      assert ToUpper(u) == u by {
        if |u| == 1 {
          assert u[1..] == [];
        } else {
          ToUpperAppend(['S'], ['S']);
          assert ['S'][1..] == [];
        }
      }
    }
  }

  lemma {:induction false} ToUpperAppend(a: string, b: string)
    ensures ToUpper(a + b) == ToUpper(a) + ToUpper(b)
    decreases |a|
  {
    if a != [] {
      assert (a + b)[1..] == a[1..] + b;
      ToUpperAppend(a[1..], b);
    } else {
      assert a + b == b;
    }
  }

  /** JavaScript's s.replace(a, b) with one-character strings: the first a becomes b. */
  function ReplaceFirst(s: string, a: char, b: char): string
  {
    if s == [] then [] else if s[0] == a then [b] + s[1..] else [s[0]] + ReplaceFirst(s[1..], a, b)
  }

  lemma {:induction false} ReplaceFirstAt(p: string, a: char, b: char, q: string)
    requires a !in p
    ensures ReplaceFirst(p + [a] + q, a, b) == p + [b] + q
    decreases |p|
  {
    if p == [] {
      assert p + [a] + q == [a] + q;
    } else {
      assert (p + [a] + q)[1..] == p[1..] + [a] + q;
      ReplaceFirstAt(p[1..], a, b, q);
    }
  }

  /** JavaScript's s.replace(c, '') with a one-character c: the first c is removed. */
  function RemoveFirst(s: string, c: char): (r: string)
    ensures c !in s ==> r == s
    ensures |r| == if c in s then |s| - 1 else |s|
  {
    if s == [] then [] else if s[0] == c then s[1..] else [s[0]] + RemoveFirst(s[1..], c)
  }

  lemma {:induction false} RemoveFirstAt(p: string, c: char, q: string)
    requires c !in p
    ensures RemoveFirst(p + [c] + q, c) == p + q
    decreases |p|
  {
    if p == [] {
      assert p + [c] + q == [c] + q;
    } else {
      var s := p + [c] + q;
      assert s[0] == p[0] && p[0] != c;
      assert s[1..] == p[1..] + [c] + q;
      assert c !in p[1..];
      RemoveFirstAt(p[1..], c, q);
      assert [p[0]] + (p[1..] + q) == p + q;
    }
  }

  /** The conditions LastIndexOf ensures pin its result down. */
  lemma {:induction false} LastIndexOfUnique(s: string, c: char, r: int)
    requires -1 <= r < |s| && (r >= 0 ==> s[r] == c)
    requires forall i :: r < i < |s| ==> s[i] != c
    ensures LastIndexOf(s, c) == r
  {
  }

  /** The last piece of a split is the text after the last separator (all of s when there is none). */
  lemma {:induction false} SplitLast(s: string, c: char)
    ensures var parts := Split(s, c); parts[|parts| - 1] == s[LastIndexOf(s, c) + 1..]
    decreases |s|
  {
    if s != [] {
      var tail := s[1..];
      SplitLast(tail, c);
      var k := LastIndexOf(tail, c);
      if k >= 0 {
        SplitMany(tail, c);
        SplitLastCons(s, c);
        LastIndexOfUnique(s, c, k + 1);
        assert s[k + 2..] == tail[k + 1..];
      } else {
        SplitLastNone(s, c);
      }
    }
  }

  /** A separator further on leaves the last piece to the tail's split. */
  lemma {:induction false} SplitLastCons(s: string, c: char)
    requires s != [] && |Split(s[1..], c)| >= 2
    ensures var parts, rest := Split(s, c), Split(s[1..], c); parts[|parts| - 1] == rest[|rest| - 1]
  {
  }

  /** With no separator after the first character, the last piece is all of s or all after it. */
  lemma {:induction false} SplitLastNone(s: string, c: char)
    requires s != [] && LastIndexOf(s[1..], c) == -1
    ensures var parts := Split(s, c); parts[|parts| - 1] == s[LastIndexOf(s, c) + 1..]
  {
    var tail := s[1..];
    assert c !in tail;
    SplitNone(tail, c);
    if s[0] == c {
      LastIndexOfUnique(s, c, 0);
    } else {
      LastIndexOfUnique(s, c, -1);
      assert [s[0]] + tail == s;
    }
  }
}
