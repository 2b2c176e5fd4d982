/** The string operations the components call: toLowerCase/toUpperCase (on the
    ASCII letters), trim (on ECMAScript's whitespace set), includes/startsWith,
    parseInt (decimal, or hexadecimal after `0x`), parseFloat (the exact decimal
    value, rounded down to whole shillings) and the decimal rendering of a number
    with padStart. */
module Text {
  import opened Base

  predicate IsUpper(c: char) { 'A' <= c <= 'Z' }
  predicate IsLower(c: char) { 'a' <= c <= 'z' }
  predicate IsDigit(c: char) { '0' <= c <= '9' }

  function LowerChar(c: char): char
  {
    if IsUpper(c) then (c as int + 32) as char else c
  }

  function UpperChar(c: char): char
  {
    if IsLower(c) then (c as int - 32) as char else c
  }

  /** `s.toLowerCase()` on ASCII letters: same length, every letter lowered, nothing else touched. */
  function Lower(s: string): (r: string)
    ensures |r| == |s|
    ensures forall i :: 0 <= i < |s| ==> r[i] == LowerChar(s[i])
  {
    seq(|s|, i requires 0 <= i < |s| => LowerChar(s[i]))
  }

  /** Lower-casing twice is lower-casing once. */
  lemma LowerIdempotent(s: string)
    ensures Lower(Lower(s)) == Lower(s)
  {
    assert forall i :: 0 <= i < |s| ==> LowerChar(LowerChar(s[i])) == LowerChar(s[i]);
  }

  /** `s.toUpperCase()` on ASCII letters. */
  function Upper(s: string): (r: string)
    ensures |r| == |s|
    ensures forall i :: 0 <= i < |s| ==> r[i] == UpperChar(s[i])
  {
    seq(|s|, i requires 0 <= i < |s| => UpperChar(s[i]))
  }

  /** ECMAScript WhiteSpace and LineTerminator: what `trim` removes and what `\s` matches. */
  predicate IsSpace(c: char)
  {
    c == ' ' || c == '\t' || c == '\n' || c == '\r' || c == '\U{000B}' || c == '\U{000C}'
    || c == '\U{00A0}' || c == '\U{1680}' || ('\U{2000}' <= c <= '\U{200A}')
    || c == '\U{2028}' || c == '\U{2029}' || c == '\U{202F}' || c == '\U{205F}'
    || c == '\U{3000}' || c == '\U{FEFF}'
  }

  /** Every character is whitespace: what `!s.trim()` tests. */
  predicate IsBlank(s: string)
  {
    forall i :: 0 <= i < |s| ==> IsSpace(s[i])
  }

  /** Number of whitespace characters at the front. */
  function LeadingSpaces(s: string): (n: nat)
    ensures n <= |s|
    ensures forall i :: 0 <= i < n ==> IsSpace(s[i])
    ensures n < |s| ==> !IsSpace(s[n])
  {
    if s != [] && IsSpace(s[0]) then 1 + LeadingSpaces(s[1..]) else 0
  }

  /** Number of whitespace characters at the back. */
  function TrailingSpaces(s: string): (n: nat)
    ensures n <= |s|
    ensures forall i :: |s| - n <= i < |s| ==> IsSpace(s[i])
    ensures n < |s| ==> !IsSpace(s[|s| - n - 1])
  {
    if s != [] && IsSpace(s[|s| - 1]) then 1 + TrailingSpaces(s[..|s| - 1]) else 0
  }

  /** `s.trimStart()` */
  function TrimStart(s: string): string
  {
    s[LeadingSpaces(s)..]
  }

  /** `s.trimEnd()` */
  function TrimEnd(s: string): string
  {
    s[..|s| - TrailingSpaces(s)]
  }

  /** `s.trim()` */
  function Trim(s: string): string
  {
    TrimEnd(TrimStart(s))
  }

  /** A prefix `u` of the suffix `t` of `s` from `k` is the slice of `s`
      from `k` of `u`'s length. */
  lemma SliceOfSuffix<T>(s: seq<T>, t: seq<T>, u: seq<T>, k: nat)
    requires k <= |s| && t == s[k..] && |u| <= |t| && u == t[..|u|]
    ensures k + |u| <= |s| && s[k..k + |u|] == u
  {
  }

  /** `s.trim()` is the slice of `s` that starts where the leading
      whitespace ends. */
  lemma TrimIsSlice(s: string)
    ensures OccursAt(s, Trim(s), LeadingSpaces(s))
  {
    var k := LeadingSpaces(s);
    var t := s[k..];
    assert t == TrimStart(s);
    var u := t[..|t| - TrailingSpaces(t)];
    assert u == TrimEnd(t) == Trim(s);
    SliceOfSuffix(s, t, u, k);
  }

  /** `s.trim()` is empty exactly when `s` is all whitespace; otherwise it is a
      slice of `s` that starts and ends with a non-space character. */
  lemma TrimEmptyIffBlank(s: string)
    ensures Trim(s) == "" <==> IsBlank(s)
    ensures Trim(s) != "" ==> !IsSpace(Trim(s)[0]) && !IsSpace(Trim(s)[|Trim(s)| - 1])
    ensures exists k :: OccursAt(s, Trim(s), k)
  {
    var k := LeadingSpaces(s);
    var t := TrimStart(s);
    var m := TrailingSpaces(t);
    TrimIsSlice(s);
    if k < |s| {
      assert t[0] == s[k];
    }
    if |t| != m {
      assert Trim(s)[0] == s[k];
      assert Trim(s)[|Trim(s)| - 1] == t[|t| - m - 1];
    }
  }

  /** `p` is a prefix of `s`: `s.startsWith(p)` */
  predicate StartsWith(s: string, p: string)
  {
    |p| <= |s| && s[..|p|] == p
  }

  /** `s.includes(t)`, searched left to right. */
  predicate Contains(s: string, t: string)
    decreases |s|
  {
    StartsWith(s, t) || (s != [] && Contains(s[1..], t))
  }

  /** `t` occurs in `s` starting at index `i`. */
  predicate OccursAt(s: string, t: string, i: int)
  {
    0 <= i <= |s| - |t| && s[i..i + |t|] == t
  }

  /** `includes` holds exactly when `t` occurs at some position of `s`. */
  lemma {:induction false} ContainsIff(s: string, t: string)
    ensures Contains(s, t) <==> exists i :: OccursAt(s, t, i)
    decreases |s|
  {
    if StartsWith(s, t) {
      assert OccursAt(s, t, 0);
    }
    if s != [] {
      ContainsIff(s[1..], t);
      if Contains(s[1..], t) {
        var i :| OccursAt(s[1..], t, i);
        assert s[1..][i..i + |t|] == s[i + 1..i + 1 + |t|];
        assert OccursAt(s, t, i + 1);
      }
      forall i | OccursAt(s, t, i) && i > 0
        ensures OccursAt(s[1..], t, i - 1)
      {
        assert s[1..][i - 1..i - 1 + |t|] == s[i..i + |t|];
      }
    }
    forall i | OccursAt(s, t, i) && i == 0
      ensures StartsWith(s, t)
    {
    }
  }

  /** Every string includes the empty string: an empty search term matches everything. */
  lemma ContainsEmpty(s: string)
    ensures Contains(s, "")
  {
    assert StartsWith(s, "");
  }

  // ----- numbers -----

  function DigitValue(c: char): nat
    requires IsDigit(c)
  {
    c as int - '0' as int
  }

  /** Number of leading decimal digits. */
  function DigitRun(s: string): (n: nat)
    ensures n <= |s|
    ensures forall i :: 0 <= i < n ==> IsDigit(s[i])
    ensures n < |s| ==> !IsDigit(s[n])
  {
    if s != [] && IsDigit(s[0]) then 1 + DigitRun(s[1..]) else 0
  }

  /** The value of a run of decimal digits, most significant first. */
  function DigitsValue(ds: string): nat
    requires forall i :: 0 <= i < |ds| ==> IsDigit(ds[i])
  {
    if ds == [] then 0 else 10 * DigitsValue(ds[..|ds| - 1]) + DigitValue(ds[|ds| - 1])
  }

  /** Leading whitespace and an optional sign, then the digit run: the integer part
      that both parseInt and parseFloat read. */
  function SignAndDigits(s: string): (bool, string)
  {
    var t := TrimStart(s);
    if t != [] && (t[0] == '-' || t[0] == '+') then (t[0] == '-', t[1..]) else (false, t)
  }

  predicate IsHexDigit(c: char)
  {
    IsDigit(c) || 'a' <= c <= 'f' || 'A' <= c <= 'F'
  }

  function HexDigitValue(c: char): nat
    requires IsHexDigit(c)
  {
    if IsDigit(c) then DigitValue(c)
    else if 'a' <= c <= 'f' then c as int - 'a' as int + 10
    else c as int - 'A' as int + 10
  }

  /** Number of leading hexadecimal digits. */
  function HexRun(s: string): (n: nat)
    ensures n <= |s|
    ensures forall i :: 0 <= i < n ==> IsHexDigit(s[i])
    ensures n < |s| ==> !IsHexDigit(s[n])
  {
    if s != [] && IsHexDigit(s[0]) then 1 + HexRun(s[1..]) else 0
  }

  /** The value of a run of hexadecimal digits, most significant first. */
  function HexValue(ds: string): nat
    requires forall i :: 0 <= i < |ds| ==> IsHexDigit(ds[i])
  {
    if ds == [] then 0 else 16 * HexValue(ds[..|ds| - 1]) + HexDigitValue(ds[|ds| - 1])
  }

  /** `0x` or `0X`: without a radix, parseInt reads what follows in base 16. */
  predicate HexPrefixed(u: string)
  {
    |u| >= 2 && u[0] == '0' && (u[1] == 'x' || u[1] == 'X')
  }

  /** The magnitude parseInt reads after the sign: the hexadecimal run after a `0x`
      prefix, otherwise the decimal run; None when the run is empty. */
  function IntMagnitude(u: string): Option<nat>
  {
    if HexPrefixed(u) then
      var h := HexRun(u[2..]);
      if h == 0 then None else Some(HexValue(u[2..][..h]))
    else
      var n := DigitRun(u);
      if n == 0 then None else Some(DigitsValue(u[..n]))
  }

  /** `parseInt(s)` with no radix, as every call site writes it: None stands for NaN. */
  function ParseInt(s: string): Option<int>
  {
    var (neg, u) := SignAndDigits(s);
    match IntMagnitude(u)
    case None => None
    case Some(m) => Some(if neg then -(m as int) else m as int)
  }

  /** A `0x` prefix followed by hexadecimal digits parses to their base-16 value, so
      `parseInt("0x3")` is 3, not the 0 a decimal reading would give. */
  lemma ParseIntOfHex(h: string)
    requires |h| >= 1 && forall i :: 0 <= i < |h| ==> IsHexDigit(h[i])
    ensures ParseInt("0x" + h) == Some(HexValue(h))
  {
    var t := "0x" + h;
    assert t[0] == '0' && !IsSpace(t[0]);
    assert LeadingSpaces(t) == 0;
    assert t[0..] == t;
    assert t[2..] == h;
    HexRunAll(h);
    assert h[..|h|] == h;
  }

  lemma {:induction false} HexRunAll(s: string)
    requires forall i :: 0 <= i < |s| ==> IsHexDigit(s[i])
    ensures HexRun(s) == |s|
  {
    if s != [] {
      HexRunAll(s[1..]);
    }
  }

  function Pow10(k: nat): (r: nat)
    ensures r >= 1
  {
    if k == 0 then 1 else 10 * Pow10(k - 1)
  }

  /** The exponent of a well-formed `e`/`E` part at position `p` of `u`, and 0 when
      there is none: `1e` and `1e+` stop before the `e`. */
  function ExponentAt(u: string, p: nat): int
  {
    if p < |u| && (u[p] == 'e' || u[p] == 'E') then
      var signed := p + 1 < |u| && (u[p + 1] == '+' || u[p + 1] == '-');
      var r := if signed then u[p + 2..] else u[p + 1..];
      var d := DigitRun(r);
      if d == 0 then 0
      else if signed && u[p + 1] == '-' then -(DigitsValue(r[..d]) as int)
      else DigitsValue(r[..d]) as int
    else 0
  }

  /** `m × 10^k` as an exact number. */
  function Scaled(m: int, k: int): real
  {
    if k >= 0 then (m * Pow10(k)) as real else (m as real) / (Pow10(-k) as real)
  }

  /** The number `parseFloat(s)` reads, exactly: after blanks and a sign, the longest
      prefix of the form `digits[.digits][e[+-]digits]` or `.digits[e[+-]digits]`;
      None (NaN) when there is no digit before the exponent. */
  function ExactAmount(s: string): Option<real>
  {
    var (neg, u) := SignAndDigits(s);
    var n := DigitRun(u);
    var hasDot := n < |u| && u[n] == '.';
    var frac := if hasDot then u[n + 1..] else [];
    var f := DigitRun(frac);
    if n == 0 && f == 0 then None
    else
      var digits := u[..n] + frac[..f];
      assert forall i :: 0 <= i < |digits| ==> IsDigit(digits[i]) by {
        forall i | 0 <= i < |digits| ensures IsDigit(digits[i]) {
          if i >= n { assert digits[i] == frac[i - n]; }
        }
      }
      var m := DigitsValue(digits) as int;
      var k := ExponentAt(u, if hasDot then n + 1 + f else n) - f;
      Some(Scaled(if neg then -m else m, k))
  }

  /** `parseFloat(s)` in whole units: its value rounded down, None for NaN. */
  function ParseAmount(s: string): (r: Option<int>)
    ensures r.None? <==> ExactAmount(s).None?
    ensures r.Some? ==> r.value as real <= ExactAmount(s).value < r.value as real + 1.0
  {
    match ExactAmount(s)
    case None => None
    case Some(x) => Some(x.Floor)
  }

  /** Rounding down loses nothing a comparison with a whole amount can see: the
      parsed value reaches `t` exactly when parseFloat's value does. */
  lemma AmountComparison(s: string, t: int)
    requires ExactAmount(s).Some?
    ensures ParseAmount(s).value >= t <==> ExactAmount(s).value >= t as real
  {
  }

  /** Exponent notation scales: `parseFloat("1e3")` is 1000, not 1. */
  lemma ParseAmountExponent(d: string, e: string)
    requires |d| >= 1 && forall i :: 0 <= i < |d| ==> IsDigit(d[i])
    requires |e| >= 1 && forall i :: 0 <= i < |e| ==> IsDigit(e[i])
    ensures ParseAmount(d + "e" + e) == Some(DigitsValue(d) * Pow10(DigitsValue(e)))
  {
    var t := d + "e" + e;
    assert !IsSpace(t[0]) && t[0] != '-' && t[0] != '+' by { assert t[0] == d[0]; }
    assert LeadingSpaces(t) == 0;
    assert t[0..] == t;
    assert SignAndDigits(t) == (false, t);
    DigitRunPrefix(t, |d|);
    assert t[..|d|] == d;
    ExactWithoutFraction(t, t, |d|);
    assert t[|d| + 1..] == e;
    ExponentOfDigits(t, |d|, e);
    var m := DigitsValue(d) * Pow10(DigitsValue(e));
    assert ExactAmount(t) == Some(m as real);
  }

  /** Without a fraction, parseFloat's value is the digit run scaled by the exponent. */
  lemma ExactWithoutFraction(s: string, u: string, n: nat)
    requires SignAndDigits(s) == (false, u)
    requires 0 < n <= |u| && DigitRun(u) == n && (n == |u| || u[n] != '.')
    ensures ExactAmount(s) == Some(Scaled(DigitsValue(u[..n]) as int, ExponentAt(u, n)))
  {
    assert u[..n] + [] == u[..n];
  }

  /** An exponent of plain digits is their value. */
  lemma ExponentOfDigits(u: string, p: nat, e: string)
    requires p < |u| && (u[p] == 'e' || u[p] == 'E') && u[p + 1..] == e
    requires |e| >= 1 && forall i :: 0 <= i < |e| ==> IsDigit(e[i])
    ensures ExponentAt(u, p) == DigitsValue(e) as int
  {
    assert u[p + 1] == e[0] && IsDigit(e[0]);
    DigitRunAll(e);
    assert e[..|e|] == e;
  }

  /** A digit run that ends at a non-digit is exactly that long. */
  lemma {:induction false} DigitRunPrefix(s: string, n: nat)
    requires n < |s| && !IsDigit(s[n]) && forall i :: 0 <= i < n ==> IsDigit(s[i])
    ensures DigitRun(s) == n
  {
    if n > 0 {
      DigitRunPrefix(s[1..], n - 1);
    }
  }

  /** `parseFloat(s) || 0`: NaN and 0 both give 0. */
  function AmountOrZero(s: string): int
  {
    match ParseAmount(s)
    case None => 0
    case Some(v) => v
  }

  /** `n.toString()` for a non-negative integer. */
  function NatToString(n: nat): (r: string)
    ensures |r| >= 1
    ensures forall i :: 0 <= i < |r| ==> IsDigit(r[i])
  {
    if n < 10 then [('0' as int + n) as char]
    else NatToString(n / 10) + [('0' as int + n % 10) as char]
  }

  /** Reading back a rendered number gives the number. */
  lemma {:induction false} NatToStringValue(n: nat)
    ensures DigitsValue(NatToString(n)) == n
  {
    var r := NatToString(n);
    if n >= 10 {
      NatToStringValue(n / 10);
      assert r[..|r| - 1] == NatToString(n / 10);
    }
  }

  lemma {:induction false} DigitRunAll(s: string)
    requires forall i :: 0 <= i < |s| ==> IsDigit(s[i])
    ensures DigitRun(s) == |s|
  {
    if s != [] {
      DigitRunAll(s[1..]);
    }
  }

  /** Once the sign and a non-empty digit run are split off, `parseInt` reads
      the run's value with that sign. */
  lemma ParseIntOfSigned(s: string, neg: bool, u: string)
    requires SignAndDigits(s) == (neg, u)
    requires |u| >= 1 && forall i :: 0 <= i < |u| ==> IsDigit(u[i])
    ensures ParseInt(s) == Some(if neg then -(DigitsValue(u) as int) else DigitsValue(u) as int)
  {
    assert !HexPrefixed(u) by { if |u| >= 2 { assert IsDigit(u[1]); } }
    DigitRunAll(u);
    assert u[..|u|] == u;
  }

  /** A non-empty run of digits parses to its value. */
  lemma ParseIntOfDigits(r: string)
    requires |r| >= 1 && forall i :: 0 <= i < |r| ==> IsDigit(r[i])
    ensures ParseInt(r) == Some(DigitsValue(r))
  {
    assert !IsSpace(r[0]) && r[0] != '-' && r[0] != '+' by { assert IsDigit(r[0]); }
    assert LeadingSpaces(r) == 0;
    assert r[0..] == r;
    ParseIntOfSigned(r, false, r);
  }

  /** Round trip: `parseInt(String(n)) == n` for every non-negative n. */
  lemma {:induction false} ParseIntOfNatToString(n: nat)
    ensures ParseInt(NatToString(n)) == Some(n)
  {
    NatToStringValue(n);
    ParseIntOfDigits(NatToString(n));
  }

  /** A minus sign and a non-empty run of digits parse to the negated value. */
  lemma ParseIntOfNegative(d: string)
    requires |d| >= 1 && forall i :: 0 <= i < |d| ==> IsDigit(d[i])
    ensures ParseInt("-" + d) == Some(-(DigitsValue(d) as int))
  {
    var t := "-" + d;
    assert t[0] == '-' && !IsSpace(t[0]);
    assert LeadingSpaces(t) == 0;
    assert t[0..] == t;
    assert t[1..] == d;
    ParseIntOfSigned(t, true, d);
  }

  /** A digit run that a stop character ends (not a digit, not the `x` of a hex
      prefix) gives parseInt the run's magnitude, whatever follows it. */
  lemma MagnitudeBeforeStop(d: string, tail: string)
    requires |d| >= 1 && forall i :: 0 <= i < |d| ==> IsDigit(d[i])
    requires |tail| >= 1 && !IsDigit(tail[0]) && tail[0] != 'x' && tail[0] != 'X'
    ensures IntMagnitude(d + tail) == Some(DigitsValue(d))
  {
    var u := d + tail;
    assert u[|d|] == tail[0];
    assert !HexPrefixed(u) by {
      if |d| >= 2 { assert u[1] == d[1] && IsDigit(d[1]); } else { assert u[1] == tail[0]; }
    }
    DigitRunPrefix(u, |d|);
    assert u[..|d|] == d;
  }

  /** `parseInt` of a rendered integer followed by a stop character reads back the
      integer: the text after the number is ignored. */
  lemma ParseIntBeforeStop(i: int, tail: string)
    requires |tail| >= 1 && !IsDigit(tail[0]) && tail[0] != 'x' && tail[0] != 'X'
    ensures ParseInt(IntToString(i) + tail) == Some(i)
  {
    if i >= 0 {
      NatBeforeStop(i, tail);
    } else {
      NegativeBeforeStop(-i, tail);
    }
  }

  lemma NatBeforeStop(n: nat, tail: string)
    requires |tail| >= 1 && !IsDigit(tail[0]) && tail[0] != 'x' && tail[0] != 'X'
    ensures ParseInt(NatToString(n) + tail) == Some(n)
  {
    var d := NatToString(n);
    NatToStringValue(n);
    MagnitudeBeforeStop(d, tail);
    var s := d + tail;
    assert s[0] == d[0] && IsDigit(d[0]);
    assert LeadingSpaces(s) == 0;
    assert s[0..] == s;
    assert SignAndDigits(s) == (false, s);
  }

  lemma NegativeBeforeStop(n: nat, tail: string)
    requires n > 0
    requires |tail| >= 1 && !IsDigit(tail[0]) && tail[0] != 'x' && tail[0] != 'X'
    ensures ParseInt("-" + NatToString(n) + tail) == Some(-(n as int))
  {
    var d := NatToString(n);
    NatToStringValue(n);
    MagnitudeBeforeStop(d, tail);
    var s := "-" + d + tail;
    assert s[0] == '-';
    assert LeadingSpaces(s) == 0;
    assert s[0..] == s;
    assert s[1..] == d + tail;
    assert SignAndDigits(s) == (true, d + tail);
  }

  /** `String(i)` for any integer. */
  function IntToString(i: int): (r: string)
    ensures ParseInt(r) == Some(i)
  {
    if i >= 0 then
      ParseIntOfNatToString(i);
      NatToString(i)
    else
      NatToStringValue(-i);
      ParseIntOfNegative(NatToString(-i));
      "-" + NatToString(-i)
  }

  /** `s.padStart(width, "0")` */
  function PadStartZero(s: string, width: nat): (r: string)
    ensures |r| == if |s| >= width then |s| else width
    ensures r[|r| - |s|..] == s
    ensures forall i :: 0 <= i < |r| - |s| ==> r[i] == '0'
  {
    if |s| >= width then s else seq(width - |s|, _ => '0') + s
  }
}
