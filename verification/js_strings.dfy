/** The JavaScript string built-ins the macro relies on, stated over `seq<char>`:
    `String.prototype.split` with a one-character separator, the
    `charAt(0).toUpperCase() + slice(1)` idiom, and the rendering of an
    integer-valued Number inside a template literal. */
module JsStrings {
  import opened Wrappers

  /** The separator between the base panel id and the widget role */
  const Dash: char := '-'

  /** `s.split(sep)`: the pieces between occurrences of `sep`, always at least one */
  function Split(s: string, sep: char): (parts: seq<string>)
    ensures |parts| >= 1
    ensures forall i :: 0 <= i < |parts| ==> sep !in parts[i]
    ensures |parts| == 1 <==> sep !in s
    decreases |s|
  {
    if |s| == 0 then [""]
    else
      var rest := Split(s[1..], sep);
      assert s == [s[0]] + s[1..];
      if s[0] == sep then [""] + rest
      else [[s[0]] + rest[0]] + rest[1..]
  }

  /** The inverse of Split: the pieces with `sep` between consecutive ones */
  function Join(parts: seq<string>, sep: char): string
    requires |parts| >= 1
    decreases |parts|
  {
    if |parts| == 1 then parts[0] else parts[0] + [sep] + Join(parts[1..], sep)
  }

  /** A string without the separator splits into itself alone */
  lemma {:induction false} SplitWithoutSeparator(s: string, sep: char)
    requires sep !in s
    ensures Split(s, sep) == [s]
  {
    // The contract of Split already pins |parts| == 1; the piece is s itself.
    JoinSplit(s, sep);
  }

  /** Splitting `p + sep + x`, with no separator in `p`, yields `p` followed by the pieces of `x` */
  lemma {:induction false} SplitAfterPrefix(p: string, sep: char, x: string)
    requires sep !in p
    ensures Split(p + [sep] + x, sep) == [p] + Split(x, sep)
    decreases |p|
  {
    var s := p + [sep] + x;
    if |p| == 0 {
      assert s[1..] == x;
    } else {
      assert s[1..] == p[1..] + [sep] + x;
      SplitAfterPrefix(p[1..], sep, x);
      assert [p[0]] + p[1..] == p;
    }
  }

  /** Joining the pieces of a split gives back the original string */
  lemma {:induction false} JoinSplit(s: string, sep: char)
    ensures Join(Split(s, sep), sep) == s
    decreases |s|
  {
    if |s| > 0 {
      JoinSplit(s[1..], sep);
      var rest := Split(s[1..], sep);
      if s[0] == sep {
        assert ([""] + rest)[1..] == rest;
      } else if |rest| > 1 {
        assert ([[s[0]] + rest[0]] + rest[1..])[1..] == rest[1..];
      }
    }
  }

  /** Splitting a join of separator-free pieces gives back the pieces */
  lemma {:induction false} SplitJoin(parts: seq<string>, sep: char)
    requires |parts| >= 1
    requires forall i :: 0 <= i < |parts| ==> sep !in parts[i]
    ensures Split(Join(parts, sep), sep) == parts
    decreases |parts|
  {
    if |parts| == 1 {
      SplitWithoutSeparator(parts[0], sep);
    } else {
      assert forall i :: 0 <= i < |parts[1..]| ==> sep !in parts[1..][i] by {
        forall i | 0 <= i < |parts[1..]| ensures sep !in parts[1..][i] {
          assert parts[1..][i] == parts[i + 1];
        }
      }
      SplitJoin(parts[1..], sep);
      SplitAfterPrefix(parts[0], sep, Join(parts[1..], sep));
      assert [parts[0]] + parts[1..] == parts;
    }
  }

  /** `const [_base, widget] = s.split('-')`: the second piece, or None for `undefined` */
  function SecondComponent(s: string): (w: Option<string>)
    ensures w.None? <==> Dash !in s
    ensures w.Some? ==> Dash !in w.value
  {
    var parts := Split(s, Dash);
    if |parts| >= 2 then Some(parts[1]) else None
  }

  /** The second component of `p + "-" + x`, for a dash-free `p`, is the first piece of `x` */
  lemma SecondComponentAfterPrefix(p: string, x: string)
    requires Dash !in p
    ensures SecondComponent(p + [Dash] + x) == Some(Split(x, Dash)[0])
    ensures Dash !in x ==> SecondComponent(p + [Dash] + x) == Some(x)
  {
    SplitAfterPrefix(p, Dash, x);
    if Dash !in x {
      SplitWithoutSeparator(x, Dash);
    }
  }

  predicate IsLowerAscii(c: char) {
    'a' <= c <= 'z'
  }

  /** `toUpperCase` on one character, for the ASCII letters: a lower-case letter
      becomes the upper-case letter at the same alphabet position */
  function UpperChar(c: char): (u: char)
    ensures IsLowerAscii(c) ==> 'A' <= u <= 'Z' && u as int - 'A' as int == c as int - 'a' as int
    ensures !IsLowerAscii(c) ==> u == c
  {
    if 'a' <= c <= 'z' then (c as int - 32) as char else c
  }

  /** `v.charAt(0).toUpperCase() + v.slice(1)` */
  function Capitalize(v: string): (k: string)
    ensures |k| == |v|
    ensures |v| > 0 ==> k[0] == UpperChar(v[0]) && k[1..] == v[1..] && !IsLowerAscii(k[0])
    ensures |v| > 0 && !IsLowerAscii(v[0]) ==> k == v
  {
    if |v| == 0 then "" else [UpperChar(v[0])] + v[1..]
  }

  predicate IsDigit(c: char) {
    '0' <= c <= '9'
  }

  function DigitChar(d: nat): (c: char)
    requires d < 10
    ensures IsDigit(c)
  {
    ('0' as int + d) as char
  }

  function DigitOf(c: char): nat
    requires IsDigit(c)
  {
    c as int - '0' as int
  }

  /** The number a run of decimal digits denotes, most significant digit first */
  function DigitsValue(s: string): nat
    requires forall i :: 0 <= i < |s| ==> IsDigit(s[i])
    decreases |s|
  {
    if |s| == 0 then 0
    else
      assert IsDigit(s[|s| - 1]);
      DigitsValue(s[..|s| - 1]) * 10 + DigitOf(s[|s| - 1])
  }

  /** A decimal rendering: non-empty digits, with no leading zero unless it is `0` */
  ghost predicate IsDecimal(s: string) {
    && |s| >= 1
    && (forall i :: 0 <= i < |s| ==> IsDigit(s[i]))
    && (s[0] == '0' ==> s == "0")
  }

  /** Decimal digits of a natural number, most significant first */
  function NatToString(n: nat): (s: string)
    ensures IsDecimal(s)
    ensures DigitsValue(s) == n
    decreases n
  {
    if n < 10 then [DigitChar(n)]
    else
      var prefix := NatToString(n / 10);
      var s := prefix + [DigitChar(n % 10)];
      assert s[..|s| - 1] == prefix;
      assert s[0] == prefix[0];
      s
  }

  /** `s` is how a template literal renders the integer `n` */
  ghost predicate RendersInteger(s: string, n: int) {
    if n < 0 then |s| >= 2 && s[0] == '-' && IsDecimal(s[1..]) && DigitsValue(s[1..]) == -n
    else IsDecimal(s) && DigitsValue(s) == n
  }

  /** `${n}` for an integer-valued Number */
  function NumberToString(n: int): (s: string)
    ensures RendersInteger(s, n)
  {
    if n < 0 then
      var s := "-" + NatToString(-n);
      assert s[1..] == NatToString(-n);
      s
    else NatToString(n)
  }

  /** Different integers render differently, so the rendering can be read back */
  lemma RenderingIsInjective(m: int, n: int)
    requires NumberToString(m) == NumberToString(n)
    ensures m == n
  {
  }
}
