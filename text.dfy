/** String primitives of the two runtimes the application uses: JavaScript's
    `trim`, `toLowerCase`, `endsWith` and `Array.prototype.join` on the client,
    Python's `str.strip`, `str.lower`, `str.split(sep, 1)` and `int()` in the
    maintenance scripts. */
module Text {
  import opened Wrappers

  /** The two notions of white space that matter: ECMAScript's WhiteSpace and
      LineTerminator (removed by `String.prototype.trim`) and Python's
      `str.isspace` (removed by `str.strip()` with no argument). */
  datatype Whitespace = JsSpace | PySpace

  predicate IsSpace(ws: Whitespace, c: char)
  {
    var n := c as int;
    match ws
    case JsSpace =>
      n == 0x09 || n == 0x0A || n == 0x0B || n == 0x0C || n == 0x0D || n == 0x20
      || n == 0xA0 || n == 0x1680 || (0x2000 <= n <= 0x200A) || n == 0x2028 || n == 0x2029
      || n == 0x202F || n == 0x205F || n == 0x3000 || n == 0xFEFF
    case PySpace =>
      (0x09 <= n <= 0x0D) || (0x1C <= n <= 0x1F) || n == 0x20 || n == 0x85
      || n == 0xA0 || n == 0x1680 || (0x2000 <= n <= 0x200A) || n == 0x2028 || n == 0x2029
      || n == 0x202F || n == 0x205F || n == 0x3000
  }

  predicate AllSpace(ws: Whitespace, s: string)
  {
    forall k :: 0 <= k < |s| ==> IsSpace(ws, s[k])
  }

  /** Number of white-space characters at the front of `s`. */
  function LeadingSpace(ws: Whitespace, s: string): (n: nat)
    ensures n <= |s|
    ensures forall k :: 0 <= k < n ==> IsSpace(ws, s[k])
    ensures n < |s| ==> !IsSpace(ws, s[n])
  {
    if |s| == 0 || !IsSpace(ws, s[0]) then 0 else 1 + LeadingSpace(ws, s[1..])
  }

  /** Number of white-space characters at the end of `s`. */
  function TrailingSpace(ws: Whitespace, s: string): (n: nat)
    ensures n <= |s|
    ensures forall k :: |s| - n <= k < |s| ==> IsSpace(ws, s[k])
    ensures n < |s| ==> !IsSpace(ws, s[|s| - 1 - n])
  {
    if |s| == 0 || !IsSpace(ws, s[|s| - 1]) then 0 else 1 + TrailingSpace(ws, s[..|s| - 1])
  }

  /** `trim()` / `strip()`: `s` without its leading and trailing white space.
      The result is the slice of `s` that starts at `LeadingSpace(ws, s)`. */
  function Strip(ws: Whitespace, s: string): (r: string)
    ensures LeadingSpace(ws, s) + |r| <= |s|
    ensures r == s[LeadingSpace(ws, s)..LeadingSpace(ws, s) + |r|]
    ensures forall k :: LeadingSpace(ws, s) + |r| <= k < |s| ==> IsSpace(ws, s[k])
    ensures r == "" <==> AllSpace(ws, s)
    ensures r != "" ==> !IsSpace(ws, r[0]) && !IsSpace(ws, r[|r| - 1])
  {
    var t := s[LeadingSpace(ws, s)..];
    t[..|t| - TrailingSpace(ws, t)]
  }

  /** JavaScript `s.trim()`. */
  function Trim(s: string): string
  {
    Strip(JsSpace, s)
  }

  /** Python `s.strip()`. */
  function PyStrip(s: string): string
  {
    Strip(PySpace, s)
  }

  /** Lower-casing of the ASCII letters; every other character is kept. */
  function LowerChar(c: char): (r: char)
    ensures 'A' <= c <= 'Z' ==> 'a' <= r <= 'z' && r as int - c as int == 32
    ensures !('A' <= c <= 'Z') ==> r == c
  {
    if 'A' <= c <= 'Z' then (c as int + 32) as char else c
  }

  function Lower(s: string): (r: string)
    ensures |r| == |s|
    ensures forall k :: 0 <= k < |s| ==> r[k] == LowerChar(s[k])
  {
    seq(|s|, k requires 0 <= k < |s| => LowerChar(s[k]))
  }

  /** JavaScript's `s.length`: UTF-16 code units, so a character outside the
      Basic Multilingual Plane counts twice. */
  function JsLength(s: string): (n: nat)
    ensures |s| <= n <= 2 * |s|
  {
    if |s| == 0 then 0
    else JsLength(s[..|s| - 1]) + (if s[|s| - 1] as int >= 0x1_0000 then 2 else 1)
  }

  predicate EndsWith(s: string, suffix: string)
  {
    |suffix| <= |s| && s[|s| - |suffix|..] == suffix
  }

  /** `Array.prototype.join(sep)`: the elements with `sep` between neighbours. */
  function Join(xs: seq<string>, sep: string): (r: string)
    ensures |xs| == 0 ==> r == ""
    ensures |xs| == 1 ==> r == xs[0]
  {
    if |xs| == 0 then "" else if |xs| == 1 then xs[0] else xs[0] + sep + Join(xs[1..], sep)
  }

  /** Splits a string at every ", ": the reading side of `Join(_, ", ")`. */
  function SplitCommaSpace(s: string): (r: seq<string>)
    ensures |r| >= 1
  {
    if |s| == 0 then [""]
    else if |s| >= 2 && s[0] == ',' && s[1] == ' ' then [""] + SplitCommaSpace(s[2..])
    else
      var rest := SplitCommaSpace(s[1..]);
      [[s[0]] + rest[0]] + rest[1..]
  }

  lemma {:induction false} SplitNoComma(x: string)
    requires ',' !in x
    ensures SplitCommaSpace(x) == [x]
  {
    if |x| > 0 {
      assert ',' !in x[1..] by { forall k | 0 <= k < |x[1..]| ensures x[1..][k] != ',' { assert x[1..][k] == x[k + 1]; } }
      SplitNoComma(x[1..]);
      assert [x[0]] + x[1..] == x;
    }
  }

  lemma {:induction false} SplitAfterElement(x: string, s: string)
    requires ',' !in x
    ensures SplitCommaSpace(x + ", " + s) == [x] + SplitCommaSpace(s)
  {
    if |x| == 0 {
      assert x + ", " + s == ", " + s;
      assert (", " + s)[2..] == s;
    } else {
      assert ',' !in x[1..] by { forall k | 0 <= k < |x[1..]| ensures x[1..][k] != ',' { assert x[1..][k] == x[k + 1]; } }
      SplitAfterElement(x[1..], s);
      var t := x + ", " + s;
      assert t[0] == x[0] && t[0] != ',';
      assert t[1..] == x[1..] + ", " + s;
      assert [x[0]] + x[1..] == x;
    }
  }

  /** Joining with ", " loses nothing when no element contains a comma:
      splitting the joined text gives the elements back, in order. */
  lemma {:induction false} JoinSplitRoundTrip(xs: seq<string>)
    requires |xs| >= 1
    requires forall i :: 0 <= i < |xs| ==> ',' !in xs[i]
    ensures SplitCommaSpace(Join(xs, ", ")) == xs
  {
    if |xs| == 1 {
      SplitNoComma(xs[0]);
    } else {
      JoinSplitRoundTrip(xs[1..]);
      SplitAfterElement(xs[0], Join(xs[1..], ", "));
      assert [xs[0]] + xs[1..] == xs;
    }
  }

  /** Index of the first occurrence of `c` in `s`, if any. */
  function IndexOf(s: string, c: char): (r: int)
    ensures -1 <= r < |s|
    ensures r == -1 <==> c !in s
    ensures r >= 0 ==> s[r] == c && c !in s[..r]
  {
    if |s| == 0 then -1
    else if s[0] == c then 0
    else
      var i := IndexOf(s[1..], c);
      if i == -1 then -1 else i + 1
  }

  lemma {:induction false} IndexOfFirst(s: string, c: char, i: nat)
    requires i < |s| && s[i] == c
    requires forall k :: 0 <= k < i ==> s[k] != c
    ensures IndexOf(s, c) == i
  {
    if i > 0 {
      IndexOfFirst(s[1..], c, i - 1);
    }
  }

  /** Python `s.split(c, 1)` for a one-character separator. */
  function SplitOnce(s: string, c: char): (r: seq<string>)
    ensures c !in s ==> r == [s]
    ensures c in s ==> |r| == 2 && r[0] + [c] + r[1] == s && c !in r[0]
  {
    var i := IndexOf(s, c);
    if i == -1 then [s] else [s[..i], s[i + 1..]]
  }

  function DigitChar(d: nat): (c: char)
    requires d < 10
    ensures '0' <= c <= '9'
  {
    (('0' as int) + d) as char
  }

  predicate IsDigit(c: char)
  {
    '0' <= c <= '9'
  }

  function DigitValue(c: char): (d: nat)
    requires IsDigit(c)
    ensures d < 10 && DigitChar(d) == c
  {
    c as int - '0' as int
  }

  /** The decimal numeral of `n`, as `${n}` and Python's `str(n)` write it. */
  function Decimal(n: nat): (r: string)
    ensures |r| >= 1
    ensures forall k :: 0 <= k < |r| ==> IsDigit(r[k])
    ensures n < 10 <==> |r| == 1
    decreases n
  {
    if n < 10 then [DigitChar(n)] else Decimal(n / 10) + [DigitChar(n % 10)]
  }

  /** The value of a string of decimal digits (leading zeros allowed). */
  function DigitsValue(s: string): (v: nat)
    requires forall k :: 0 <= k < |s| ==> IsDigit(s[k])
  {
    if |s| == 0 then 0 else 10 * DigitsValue(s[..|s| - 1]) + DigitValue(s[|s| - 1])
  }

  lemma {:induction false} DecimalValue(n: nat)
    ensures DigitsValue(Decimal(n)) == n
    decreases n
  {
    if n >= 10 {
      DecimalValue(n / 10);
      var r := Decimal(n);
      assert r[..|r| - 1] == Decimal(n / 10);
    }
  }

  /** Body of a Python integer literal: ASCII digits, where a single `_` may
      stand between two digits. */
  predicate IsDigitGroups(s: string)
  {
    |s| >= 1 && IsDigit(s[0]) && IsDigit(s[|s| - 1])
    && (forall k :: 0 <= k < |s| ==> IsDigit(s[k]) || s[k] == '_')
    && (forall k :: 0 <= k < |s| - 1 ==> !(s[k] == '_' && s[k + 1] == '_'))
  }

  /** The digits of `s` with the separating underscores removed. */
  function DropUnderscores(s: string): (r: string)
    ensures forall k :: 0 <= k < |r| ==> r[k] != '_'
    ensures |r| <= |s|
  {
    if |s| == 0 then "" else (if s[0] == '_' then "" else [s[0]]) + DropUnderscores(s[1..])
  }

  lemma {:induction false} DropUnderscoresDigits(s: string)
    requires forall k :: 0 <= k < |s| ==> IsDigit(s[k]) || s[k] == '_'
    ensures forall k :: 0 <= k < |DropUnderscores(s)| ==> IsDigit(DropUnderscores(s)[k])
  {
    if |s| > 0 {
      DropUnderscoresDigits(s[1..]);
    }
  }

  /** The digit groups after the sign, if well-formed. */
  function UnsignedDigits(body: string): Option<nat>
  {
    if !IsDigitGroups(body) then None
    else
      DropUnderscoresDigits(body);
      Some(DigitsValue(DropUnderscores(body)))
  }

  /** Python `int(t)` on an already stripped string: one optional sign,
      then digit groups. `None` is the `ValueError` case. */
  function SignedDigits(t: string): (r: Option<int>)
    ensures r.Some? ==> t != ""
  {
    if |t| == 0 then None
    else if t[0] == '-' then
      match UnsignedDigits(t[1..])
      case None => None
      case Some(v) => Some(-(v as int))
    else if t[0] == '+' then
      match UnsignedDigits(t[1..])
      case None => None
      case Some(v) => Some(v as int)
    else
      match UnsignedDigits(t)
      case None => None
      case Some(v) => Some(v as int)
  }

  /** Python `int(s.strip())`: the string is stripped with `str.strip`'s
      white-space set first, as the callers do, then read with ASCII digits
      only. (`int()` alone skips a slightly smaller set, without
      U+001C..U+001F; the difference never shows after `strip()`.) */
  function PyInt(s: string): (r: Option<int>)
    ensures r.Some? ==> PyStrip(s) != ""
  {
    SignedDigits(PyStrip(s))
  }

  /** What `int()` accepts: after stripping, an optional sign, then digits
      and single underscores, ending in a digit. Any other character in the
      stripped text is a `ValueError`. */
  lemma {:induction false} PyIntShape(s: string)
    ensures var t := PyStrip(s);
            PyInt(s).Some? ==>
              && |t| >= 1 && IsDigit(t[|t| - 1])
              && (IsDigit(t[0]) || t[0] == '-' || t[0] == '+')
              && forall k :: 1 <= k < |t| ==> IsDigit(t[k]) || t[k] == '_'
  {
    var t := PyStrip(s);
    if PyInt(s).Some? {
      if t[0] == '-' || t[0] == '+' {
        var body := t[1..];
        assert IsDigitGroups(body);
        forall k | 1 <= k < |t| ensures IsDigit(t[k]) || t[k] == '_' {
          assert t[k] == body[k - 1];
        }
        assert t[|t| - 1] == body[|body| - 1];
      } else {
        assert IsDigitGroups(t);
      }
    }
  }

  lemma PyIntOfDecimal(n: nat)
    ensures PyInt(Decimal(n)) == Some(n)
  {
    var d := Decimal(n);
    assert forall k :: 0 <= k < |d| ==> !IsSpace(PySpace, d[k]) by {
      NumeralNoSpace(d);
    }
    StripNoSpace(PySpace, d);
    SignedDigitsOfDecimal(n);
  }

  /** A decimal numeral is a single digit group with nothing to drop. */
  lemma DecimalGroups(n: nat)
    ensures IsDigitGroups(Decimal(n))
    ensures DropUnderscores(Decimal(n)) == Decimal(n)
    ensures DigitsValue(DropUnderscores(Decimal(n))) == n
  {
    var d := Decimal(n);
    DropUnderscoresNone(d);
    DecimalValue(n);
  }

  lemma SignedDigitsOfDecimal(n: nat)
    ensures SignedDigits(Decimal(n)) == Some(n)
  {
    var d := Decimal(n);
    assert IsDigit(d[0]);
    DecimalGroups(n);
    assert UnsignedDigits(d) == Some(n);
  }

  lemma {:induction false} DropUnderscoresNone(s: string)
    requires forall k :: 0 <= k < |s| ==> s[k] != '_'
    ensures DropUnderscores(s) == s
  {
    if |s| > 0 {
      DropUnderscoresNone(s[1..]);
      assert [s[0]] + s[1..] == s;
    }
  }

  /** A string without white space is its own strip. */
  lemma StripNoSpace(ws: Whitespace, s: string)
    requires forall k :: 0 <= k < |s| ==> !IsSpace(ws, s[k])
    ensures Strip(ws, s) == s
  {
    assert LeadingSpace(ws, s) == 0;
    assert TrailingSpace(ws, s) == 0;
  }

  lemma PyIntOfNegDecimal(n: nat)
    ensures PyInt("-" + Decimal(n)) == Some(-(n as int))
  {
    var d := Decimal(n);
    var t := "-" + d;
    assert forall k :: 0 <= k < |t| ==> IsDigit(t[k]) || t[k] == '-' by {
      forall k | 0 <= k < |t| ensures IsDigit(t[k]) || t[k] == '-' {
        if k > 0 { assert t[k] == d[k - 1]; }
      }
    }
    NumeralNoSpace(t);
    StripNoSpace(PySpace, t);
    SignedDigitsOfNegDecimal(n);
  }

  lemma SignedDigitsOfNegDecimal(n: nat)
    ensures SignedDigits("-" + Decimal(n)) == Some(-(n as int))
  {
    DecimalGroups(n);
    assert UnsignedDigits(Decimal(n)) == Some(n);
    SignedDigitsNegative(Decimal(n), n);
  }

  /** `int("-" + body)` is the negated value of a well-formed body. */
  lemma SignedDigitsNegative(body: string, v: nat)
    requires UnsignedDigits(body) == Some(v)
    ensures SignedDigits("-" + body) == Some(-(v as int))
  {
    var t := "-" + body;
    assert t[0] == '-' && t[1..] == body;
  }

  /** Signs and digits are not white space. */
  lemma NumeralNoSpace(t: string)
    requires forall k :: 0 <= k < |t| ==> IsDigit(t[k]) || t[k] == '-'
    ensures forall k :: 0 <= k < |t| ==> !IsSpace(PySpace, t[k])
  {
  }
}
