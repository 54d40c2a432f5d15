/** Decimal text of numbers, and the two JavaScript string-to-number
    conversions the sources rely on: `parseInt(s)` (no radix) and
    `Number(s)`. */
module Decimal {
  import opened Common

  predicate IsDigit(c: char)
  {
    '0' <= c <= '9'
  }

  predicate AllDigits(s: string)
  {
    forall i :: 0 <= i < |s| ==> IsDigit(s[i])
  }

  function DigitChar(d: nat): (c: char)
    requires d < 10
    ensures IsDigit(c)
  {
    ('0' as int + d) as char
  }

  function DigitValue(c: char): (d: nat)
    requires IsDigit(c)
    ensures d < 10 && DigitChar(d) == c
  {
    (c as int - '0' as int) as nat
  }

  /** `String(n)` for a natural number: its shortest decimal text. */
  function NatToString(n: nat): (s: string)
    ensures |s| > 0 && AllDigits(s)
    ensures s[0] == '0' <==> n == 0
    decreases n
  {
    if n < 10 then [DigitChar(n)] else NatToString(n / 10) + [DigitChar(n % 10)]
  }

  /** The value of a string of decimal digits. */
  function DigitsValue(s: string): nat
    requires AllDigits(s)
  {
    if s == [] then 0 else DigitsValue(s[..|s| - 1]) * 10 + DigitValue(s[|s| - 1])
  }

  /** Reading back the text written by NatToString gives the number. */
  lemma {:induction false} NatToStringRoundTrip(n: nat)
    ensures DigitsValue(NatToString(n)) == n
    decreases n
  {
    var s := NatToString(n);
    if n >= 10 {
      NatToStringRoundTrip(n / 10);
      assert s[..|s| - 1] == NatToString(n / 10);
    }
  }

  /** Number of decimal digits at the front of s. */
  function DigitRun(s: string): (k: nat)
    ensures k <= |s| && AllDigits(s[..k])
    ensures k < |s| ==> !IsDigit(s[k])
  {
    if s != [] && IsDigit(s[0]) then
      var k := 1 + DigitRun(s[1..]);
      assert s[..k] == [s[0]] + s[1..][..k - 1];
      k
    else 0
  }

  /** The digit run of a digit string followed by a non-digit is exactly
      that digit string. */
  lemma {:induction false} DigitRunOfDigits(d: string, rest: string)
    requires AllDigits(d)
    requires rest == [] || !IsDigit(rest[0])
    ensures DigitRun(d + rest) == |d|
  {
    if d != [] {
      assert (d + rest)[1..] == d[1..] + rest;
      DigitRunOfDigits(d[1..], rest);
    }
  }

  /** Distinct numbers have distinct decimal texts. */
  lemma NatToStringInjective(m: nat, n: nat)
    requires NatToString(m) == NatToString(n)
    ensures m == n
  {
    NatToStringRoundTrip(m);
    NatToStringRoundTrip(n);
  }

  // ---------------------------------------------------------------------
  // parseInt(s) with no radix (ECMAScript section 19.2.5).

  /** The StrWhiteSpaceChar characters that `parseInt` and `Number` skip:
      WhiteSpace (tab, vertical tab, form feed, space, no-break space, the
      byte-order mark and every Zs space) and LineTerminator. The same
      characters are those `\s` matches in a regular expression. */
  predicate IsJsSpace(c: char)
  {
    c == ' ' || c == '\t' || c == '\n' || c == '\r' || c == '\U{000B}' || c == '\U{000C}'
    || c == '\U{00A0}' || c == '\U{1680}' || ('\U{2000}' <= c <= '\U{200A}') || c == '\U{2028}'
    || c == '\U{2029}' || c == '\U{202F}' || c == '\U{205F}' || c == '\U{3000}' || c == '\U{FEFF}'
  }

  predicate AllSpace(s: string)
  {
    forall i :: 0 <= i < |s| ==> IsJsSpace(s[i])
  }

  function TrimStart(s: string): (r: string)
    ensures |r| <= |s| && r == s[|s| - |r|..]
    ensures r == [] || !IsJsSpace(r[0])
  {
    if s != [] && IsJsSpace(s[0]) then TrimStart(s[1..]) else s
  }

  function TrimEnd(s: string): (r: string)
    ensures |r| <= |s| && r == s[..|r|]
    ensures r == [] || !IsJsSpace(r[|r| - 1])
  {
    if s != [] && IsJsSpace(s[|s| - 1]) then TrimEnd(s[..|s| - 1]) else s
  }

  /** The value of a character as a digit in the given radix, if it is one. */
  function RadixDigit(c: char, radix: nat): (d: Option<nat>)
    ensures d.Some? ==> d.value < radix
  {
    var v :=
      if '0' <= c <= '9' then c as int - '0' as int
      else if 'a' <= c <= 'z' then c as int - 'a' as int + 10
      else if 'A' <= c <= 'Z' then c as int - 'A' as int + 10
      else 36;
    if v < radix then Some(v as nat) else None
  }

  /** Length of the longest prefix of s made of digits of the radix. */
  function DigitPrefixLength(s: string, radix: nat): (k: nat)
    ensures k <= |s|
    ensures forall i :: 0 <= i < k ==> RadixDigit(s[i], radix).Some?
    ensures k < |s| ==> RadixDigit(s[k], radix).None?
  {
    if s != [] && RadixDigit(s[0], radix).Some? then 1 + DigitPrefixLength(s[1..], radix) else 0
  }

  function RadixValue(s: string, radix: nat): nat
    requires forall i :: 0 <= i < |s| ==> RadixDigit(s[i], radix).Some?
  {
    if s == [] then 0
    else
      var init := s[..|s| - 1];
      assert forall i :: 0 <= i < |init| ==> init[i] == s[i];
      var high := RadixValue(init, radix);
      ProductNat(high, radix);
      high * radix + RadixDigit(s[|s| - 1], radix).value
  }

  lemma ProductNat(a: nat, b: nat)
    ensures a * b >= 0
  {
  }

  /** The digits part of `parseInt`: an optional `0x`/`0X` prefix switches
      to radix 16, then the longest run of digits is read; no digit at all
      gives NaN (None). */
  function ParseUnsigned(u: string): (r: Option<nat>)
  {
    var hex := |u| >= 2 && u[0] == '0' && (u[1] == 'x' || u[1] == 'X');
    var radix := if hex then 16 else 10;
    var body := if hex then u[2..] else u;
    var k := DigitPrefixLength(body, radix);
    if k == 0 then None else Some(RadixValue(body[..k], radix))
  }

  /** `parseInt(s)`: skip leading white space and an optional sign, then
      read the digits. */
  function ParseInt(s: string): (r: Option<int>)
    ensures AllSpace(s) ==> r.None?
    ensures r.Some? ==> TrimStart(s) != [] && (r.value < 0 ==> TrimStart(s)[0] == '-')
  {
    var t := TrimStart(s);
    var negative := t != [] && t[0] == '-';
    var m := ParseUnsigned(if t != [] && (t[0] == '-' || t[0] == '+') then t[1..] else t);
    if m.None? then None
    else if negative then Some(0 - m.value)
    else Some(m.value as int)
  }

  lemma {:induction false} RadixValueOfDigits(s: string)
    requires AllDigits(s)
    ensures forall i :: 0 <= i < |s| ==> RadixDigit(s[i], 10).Some?
    ensures RadixValue(s, 10) == DigitsValue(s)
  {
    if s != [] {
      RadixValueOfDigits(s[..|s| - 1]);
    }
  }

  lemma {:induction false} DigitPrefixOfDigits(s: string, rest: string)
    requires AllDigits(s)
    requires rest == [] || RadixDigit(rest[0], 10).None?
    ensures DigitPrefixLength(s + rest, 10) == |s|
  {
    if s != [] {
      assert (s + rest)[1..] == s[1..] + rest;
      DigitPrefixOfDigits(s[1..], rest);
    }
  }

  /** What may follow a number's text without changing what `parseInt`
      reads: nothing, or a character that is not a decimal digit and not
      the `x` of a hex prefix. */
  predicate EndsNumber(rest: string)
  {
    rest == [] || (RadixDigit(rest[0], 10).None? && rest[0] != 'x' && rest[0] != 'X')
  }

  lemma ParseUnsignedOfNatToString(n: nat, rest: string)
    requires EndsNumber(rest)
    ensures ParseUnsigned(NatToString(n) + rest) == Some(n)
  {
    var s := NatToString(n);
    var u := s + rest;
    if n == 0 {
      assert s == ['0'];
    } else {
      assert u[0] != '0';
    }
    DigitPrefixOfDigits(s, rest);
    assert u[..|s|] == s;
    RadixValueOfDigits(s);
    NatToStringRoundTrip(n);
  }

  /** `parseInt(String(n) + rest) === n` when rest does not continue the
      number. */
  lemma ParseIntOfNatToString(n: nat, rest: string)
    requires EndsNumber(rest)
    ensures ParseInt(NatToString(n) + rest) == Some(n)
  {
    var s := NatToString(n) + rest;
    assert s[0] == NatToString(n)[0];
    assert IsDigit(s[0]);
    assert !IsJsSpace(s[0]);
    assert TrimStart(s) == s;
    assert s[0] != '-' && s[0] != '+';
    ParseUnsignedOfNatToString(n, rest);
    assert ParseUnsigned(s) == Some(n);
  }

  // ---------------------------------------------------------------------
  // Number(s) for the strings query parameters carry.

  /** `Number(s)` restricted to the integer texts: the empty (or all white
      space) string is 0, an optionally signed run of decimal digits
      surrounded by white space is its value, anything else is NaN (None). */
  function StringToNumber(s: string): (r: Option<int>)
    ensures r.Some? && r.value > 0 ==> TrimEnd(TrimStart(s)) != []
  {
    var t := TrimEnd(TrimStart(s));
    if t == [] then Some(0) else SignedDigits(t)
  }

  /** A trimmed, non-blank text: an optional sign, then a non-empty digit
      run. */
  function SignedDigits(t: string): Option<int>
    requires t != []
  {
    var negative := t[0] == '-';
    var u := if t[0] == '-' || t[0] == '+' then t[1..] else t;
    var magnitude: int := if AllDigits(u) then DigitsValue(u) else 0;
    if u != [] && AllDigits(u) then Some(if negative then -magnitude else magnitude)
    else None
  }

  /** The value of a digit run under a sign. */
  function SignedValue(sign: string, d: string): int
    requires AllDigits(d)
  {
    var v: int := DigitsValue(d);
    if sign == "-" then -v else v
  }

  lemma StringToNumberOfNatToString(n: nat)
    ensures StringToNumber(NatToString(n)) == Some(n)
  {
    StringToNumberOfDigits(NatToString(n));
    NatToStringRoundTrip(n);
  }

  /** A nonempty run of digits reads as its value. */
  lemma StringToNumberOfDigits(s: string)
    requires s != [] && AllDigits(s)
    ensures StringToNumber(s) == Some(DigitsValue(s))
  {
    TrimDigits(s);
    assert s[0] != '-' && s[0] != '+' by { assert IsDigit(s[0]); }
  }

  lemma TrimDigits(s: string)
    requires s != [] && AllDigits(s)
    ensures TrimStart(s) == s && TrimEnd(s) == s
  {
    DigitNotSpace(s[0]);
    DigitNotSpace(s[|s| - 1]);
  }

  lemma DigitNotSpace(c: char)
    requires IsDigit(c)
    ensures !IsJsSpace(c)
  {
  }

  // ---------------------------------------------------------------------
  // What Number(s) reads, text by text.

  /** `s` is white space `a`, an optional sign, a non-empty digit run `d`
      and white space `b`. */
  predicate PaddedInteger(s: string, a: string, sign: string, d: string, b: string)
  {
    s == a + (sign + d + b) && AllSpace(a) && AllSpace(b)
    && (sign == "" || sign == "+" || sign == "-") && d != [] && AllDigits(d)
  }

  /** A padded, optionally signed digit run reads as its signed value. */
  lemma StringToNumberPadded(s: string, a: string, sign: string, d: string, b: string)
    requires PaddedInteger(s, a, sign, d, b)
    ensures StringToNumber(s) == Some(SignedValue(sign, d))
  {
    var x := sign + d;
    TrimPadded(a, x, b, d);
    SignedDigitsOf(sign, d);
  }

  lemma SignedDigitsOf(sign: string, d: string)
    requires (sign == "" || sign == "+" || sign == "-") && d != [] && AllDigits(d)
    ensures SignedDigits(sign + d) == Some(SignedValue(sign, d))
  {
    var x := sign + d;
    if sign == "" {
      assert x == d;
      assert d[0] != '-' && d[0] != '+' by { assert IsDigit(d[0]); }
    } else {
      assert x[1..] == d;
    }
  }

  /** Trimming a padded text leaves the text between the padding. */
  lemma TrimPadded(a: string, x: string, b: string, d: string)
    requires AllSpace(a) && AllSpace(b) && d != [] && AllDigits(d)
    requires x == d || x == "+" + d || x == "-" + d
    ensures TrimEnd(TrimStart(a + (x + b))) == x
  {
    DigitNotSpace(d[0]);
    DigitNotSpace(d[|d| - 1]);
    assert x[|x| - 1] == d[|d| - 1];
    TrimStartSpaces(a, x + b);
    TrimEndSpaces(x, b);
  }

  /** A blank text reads as 0. */
  lemma StringToNumberBlank(s: string)
    requires AllSpace(s)
    ensures StringToNumber(s) == Some(0)
  {
    TrimStartSpaces(s, []);
    assert s + [] == s;
  }

  /** Every other text is NaN: a text that reads as a number is blank or a
      padded, optionally signed digit run. */
  lemma StringToNumberSome(s: string)
    requires StringToNumber(s).Some?
    ensures AllSpace(s) || exists a, sign, d, b :: PaddedInteger(s, a, sign, d, b)
  {
    var a, t, b := TrimSplit(s);
    if t == [] {
      assert s == a + b;
    } else {
      var sign, d := SignedDigitsSplit(t);
      assert PaddedInteger(s, a, sign, d, b);
    }
  }

  /** `Number(s)` is NaN exactly for a text that is neither blank nor a
      padded, optionally signed digit run. */
  lemma StringToNumberNaN(s: string)
    ensures StringToNumber(s).None? <==>
              !AllSpace(s) && forall a, sign, d, b :: !PaddedInteger(s, a, sign, d, b)
  {
    if StringToNumber(s).Some? {
      StringToNumberSome(s);
    } else {
      if AllSpace(s) {
        StringToNumberBlank(s);
      }
      forall a, sign, d, b | PaddedInteger(s, a, sign, d, b) ensures false {
        StringToNumberPadded(s, a, sign, d, b);
      }
    }
  }

  /** A text that SignedDigits reads is an optional sign and a digit run. */
  lemma SignedDigitsSplit(t: string) returns (sign: string, d: string)
    requires t != [] && SignedDigits(t).Some?
    ensures t == sign + d && (sign == "" || sign == "+" || sign == "-")
    ensures d != [] && AllDigits(d)
  {
    sign := if t[0] == '-' || t[0] == '+' then t[..1] else "";
    d := t[|sign|..];
    assert t == sign + d;
  }

  /** A text is its leading white space, its trimmed core and its trailing
      white space. */
  lemma TrimSplit(s: string) returns (a: string, t: string, b: string)
    ensures s == a + (t + b) && AllSpace(a) && AllSpace(b)
    ensures t == TrimEnd(TrimStart(s))
  {
    var ts := TrimStart(s);
    t := TrimEnd(ts);
    a := s[..|s| - |ts|];
    b := ts[|t|..];
    TrimStartDrops(s);
    TrimEndDrops(ts);
    SplitAt(ts, |t|);
    SplitAt(s, |s| - |ts|);
  }

  lemma SplitAt(s: string, k: nat)
    requires k <= |s|
    ensures s == s[..k] + s[k..]
  {
  }

  /** Trimming removes only white space. */
  lemma {:induction false} TrimStartDrops(s: string)
    ensures AllSpace(s[..|s| - |TrimStart(s)|])
  {
    if s != [] && IsJsSpace(s[0]) {
      TrimStartDrops(s[1..]);
      var k := |s| - |TrimStart(s)|;
      assert s[..k] == [s[0]] + s[1..][..k - 1];
    }
  }

  lemma {:induction false} TrimEndDrops(s: string)
    ensures AllSpace(s[|TrimEnd(s)|..])
  {
    if s != [] && IsJsSpace(s[|s| - 1]) {
      TrimEndDrops(s[..|s| - 1]);
      var k := |TrimEnd(s)|;
      assert s[k..] == s[..|s| - 1][k..] + [s[|s| - 1]];
    }
  }

  lemma {:induction false} TrimStartSpaces(a: string, x: string)
    requires AllSpace(a) && (x == [] || !IsJsSpace(x[0]))
    ensures TrimStart(a + x) == x
  {
    if a != [] {
      assert (a + x)[1..] == a[1..] + x;
      TrimStartSpaces(a[1..], x);
    }
  }

  lemma {:induction false} TrimEndSpaces(x: string, b: string)
    requires AllSpace(b) && (x == [] || !IsJsSpace(x[|x| - 1]))
    ensures TrimEnd(x + b) == x
  {
    if b != [] {
      assert (x + b)[..|x + b| - 1] == x + b[..|b| - 1];
      TrimEndSpaces(x, b[..|b| - 1]);
    } else {
      assert x + b == x;
    }
  }
}
