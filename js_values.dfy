/** JavaScript values and the string-to-number conversions the watch relies on:
    `Number(...)`, `parseInt(...)`, `String(n).padStart(2, '0')` and `split(':')`. */
module JsValues {

  datatype Option<+T> = None | Some(value: T)

  /** A number as the modelled code can produce it: an integer or NaN
      (fractions, infinities and -0 never arise in the modelled paths). */
  datatype Num = Int(v: int) | NaN

  /** `a + b` */
  function Add(a: Num, b: Num): Num {
    if a.Int? && b.Int? then Int(a.v + b.v) else NaN
  }

  /** `a * k` for an integer constant `k` */
  function Scale(a: Num, k: int): Num {
    if a.Int? then Int(a.v * k) else NaN
  }

  /** `x >= a`: every comparison with NaN is false */
  predicate AtLeast(x: int, a: Num) {
    a.Int? && x >= a.v
  }

  /** `n || d` for a number: NaN and 0 are falsy */
  function OrInt(n: Num, d: int): (r: int)
    ensures n.Int? && n.v != 0 ==> r == n.v
    ensures (n.NaN? || n == Int(0)) ==> r == d
  {
    if n.Int? && n.v != 0 then n.v else d
  }

  predicate IsDigit(c: char) {
    '0' <= c <= '9'
  }

  predicate AllDigits(s: string) {
    forall i :: 0 <= i < |s| ==> IsDigit(s[i])
  }

  function DigitValue(c: char): (d: nat)
    requires IsDigit(c)
    ensures d < 10
  {
    c as int - '0' as int
  }

  function DigitChar(d: nat): (c: char)
    requires d < 10
    ensures IsDigit(c) && DigitValue(c) == d
  {
    (d + '0' as int) as char
  }

  /** The value of a string of decimal digits, most significant first;
      the empty string is 0, as `Number("")` is. */
  function DigitsValue(s: string): nat
    requires AllDigits(s)
  {
    if s == [] then 0 else DigitsValue(s[..|s| - 1]) * 10 + DigitValue(s[|s| - 1])
  }

  /** `String(n)` for a non-negative integer */
  function Decimal(n: nat): (s: string)
    ensures 1 <= |s| && AllDigits(s)
    ensures n < 10 <==> |s| == 1
    ensures 10 <= n < 100 <==> |s| == 2
  {
    if n < 10 then [DigitChar(n)] else Decimal(n / 10) + [DigitChar(n % 10)]
  }

  lemma {:induction false} DecimalRoundTrip(n: nat)
    ensures DigitsValue(Decimal(n)) == n
  {
    if n >= 10 {
      DecimalRoundTrip(n / 10);
      var s := Decimal(n);
      assert s[..|s| - 1] == Decimal(n / 10);
    }
  }

  /** `String(n).padStart(2, '0')` for a non-negative integer */
  function Pad2(n: nat): (s: string)
    ensures 2 <= |s| && AllDigits(s) && DigitsValue(s) == n
    ensures n < 100 ==> |s| == 2
  {
    DecimalRoundTrip(n);
    if n < 10 then
      var s := "0" + Decimal(n);
      assert s[..1] == "0";
      s
    else Decimal(n)
  }

  /** `String(n).padStart(2, '0')` for any integer: a negative number
      already has two characters or more, so only its sign is added. */
  function PadStart2(n: int): (s: string)
    ensures 2 <= |s|
    ensures n >= 0 ==> s == Pad2(n)
  {
    if n >= 0 then Pad2(n) else "-" + Decimal(-n)
  }

  /** Pad2 is injective: the two-digit fields of a clock string determine the numbers. */
  lemma Pad2Injective(a: nat, b: nat)
    requires Pad2(a) == Pad2(b)
    ensures a == b
  {
  }

  /** `Number(s)` for the strings the watch's time inputs produce: a string
      of decimal digits (the empty string included) is that number, any
      other string is NaN. */
  function ToNumber(s: string): (r: Num)
    ensures r.Int? <==> AllDigits(s)
    ensures r.Int? ==> r.v >= 0
  {
    if AllDigits(s) then Int(DigitsValue(s)) else NaN
  }

  /** The element at `i` of `parts.map(Number)` after destructuring:
      a missing element is `undefined`, which behaves as NaN in arithmetic and in `||`. */
  function NumberAt(parts: seq<string>, i: nat): Num {
    if i < |parts| then ToNumber(parts[i]) else NaN
  }

  predicate IsSpace(c: char) {
    c == ' ' || c == '\t' || c == '\n' || c == '\r' || c == '\U{B}' || c == '\U{C}'
  }

  function TrimStart(s: string): (t: string)
    ensures |t| <= |s| && t == s[|s| - |t|..]
    ensures t != [] ==> !IsSpace(t[0])
  {
    if s != [] && IsSpace(s[0]) then TrimStart(s[1..]) else s
  }

  /** The longest prefix of `s` made of decimal digits */
  function DigitPrefix(s: string): (d: string)
    ensures AllDigits(d) && d <= s
    ensures |d| < |s| ==> !IsDigit(s[|d|])
  {
    if s != [] && IsDigit(s[0]) then [s[0]] + DigitPrefix(s[1..]) else []
  }

  /** `parseInt(s)` with no radix: leading white space, an optional sign,
      then the longest run of decimal digits; NaN when there is no digit. */
  function ParseInt(s: string): (r: Num)
    ensures r.NaN? <==> DigitPrefix(Unsigned(TrimStart(s))) == []
  {
    var t := TrimStart(s);
    var d := DigitPrefix(Unsigned(t));
    if d == [] then NaN
    else if t[0] == '-' then Int(-(DigitsValue(d) as int))
    else Int(DigitsValue(d))
  }

  /** The text after an optional leading sign */
  function Unsigned(t: string): (u: string)
    ensures |u| <= |t| && t[|t| - |u|..] == u
    ensures u != t <==> t != [] && (t[0] == '-' || t[0] == '+')
    ensures u != t ==> u == t[1..]
  {
    if t != [] && (t[0] == '-' || t[0] == '+') then t[1..] else t
  }

  lemma DigitPrefixOfDigits(s: string)
    requires AllDigits(s)
    ensures DigitPrefix(s) == s
  {
  }

  /** `parseInt(String(n)) === n`: the round trip of a decimal numeral */
  lemma ParseIntDecimal(n: nat)
    ensures ParseInt(Decimal(n)) == Int(n)
  {
    var s := Decimal(n);
    assert TrimStart(s) == s;
    assert Unsigned(s) == s;
    DigitPrefixOfDigits(s);
    DecimalRoundTrip(n);
  }

  /** A string that holds no digit at all parses to NaN */
  /** A text without a single decimal digit */
  predicate NoDigit(s: string) {
    forall i :: 0 <= i < |s| ==> !IsDigit(s[i])
  }

  lemma ParseIntNoDigit(s: string)
    requires NoDigit(s)
    ensures ParseInt(s) == NaN
  {
    var t := TrimStart(s);
    var u := Unsigned(t);
    assert u == s[|s| - |u|..];
    if u != [] {
      assert u[0] == s[|s| - |u|];
    }
  }

  /** Concatenation with a separator between parts: the inverse of Split */
  function Join(parts: seq<string>, sep: char): string
    requires |parts| >= 1
  {
    if |parts| == 1 then parts[0] else parts[0] + [sep] + Join(parts[1..], sep)
  }

  predicate Free(s: string, sep: char) {
    forall j :: 0 <= j < |s| ==> s[j] != sep
  }

  /** `s.split(sep)` for a one-character separator */
  function Split(s: string, sep: char): (parts: seq<string>)
    ensures |parts| >= 1
  {
    if s == [] then [""]
    else
      var rest := Split(s[1..], sep);
      if s[0] == sep then
        [""] + rest
      else
        var parts := [[s[0]] + rest[0]] + rest[1..];
        assert |rest| > 1 ==> rest == [rest[0]] + rest[1..];
        parts
  }

  /** Split and Join are inverse: the parts hold no separator and joined back give the string */
  lemma {:induction false} SplitJoin(s: string, sep: char)
    ensures forall i :: 0 <= i < |Split(s, sep)| ==> Free(Split(s, sep)[i], sep)
    ensures Join(Split(s, sep), sep) == s
  {
    if s != [] {
      var rest := Split(s[1..], sep);
      SplitJoin(s[1..], sep);
      if s[0] == sep {
        assert Split(s, sep) == [""] + rest;
        assert ([""] + rest)[1..] == rest;
      } else {
        var parts := Split(s, sep);
        assert parts == [[s[0]] + rest[0]] + rest[1..];
        if |rest| > 1 {
          assert parts[1..] == rest[1..];
          assert Join(rest, sep) == rest[0] + [sep] + Join(rest[1..], sep);
        }
        assert forall i :: 1 <= i < |parts| ==> parts[i] == rest[i];
      }
    }
  }

  /** Splitting at the first separator */
  lemma {:induction false} SplitAfter(a: string, sep: char, b: string)
    requires Free(a, sep)
    ensures Split(a + [sep] + b, sep) == [a] + Split(b, sep)
  {
    var s := a + [sep] + b;
    if a == [] {
      assert s[0] == sep && s[1..] == b;
    } else {
      assert s[0] == a[0] && s[0] != sep;
      assert s[1..] == a[1..] + [sep] + b;
      SplitAfter(a[1..], sep, b);
      var rest := Split(s[1..], sep);
      assert rest == [a[1..]] + Split(b, sep);
      assert Split(s, sep) == [[s[0]] + rest[0]] + rest[1..];
      assert [a[0]] + a[1..] == a;
    }
  }

  lemma {:induction false} SplitFree(a: string, sep: char)
    requires Free(a, sep)
    ensures Split(a, sep) == [a]
  {
    if a != [] {
      SplitFree(a[1..], sep);
      assert a[0] != sep;
      assert [a[0]] + a[1..] == a;
    }
  }
}
