/** The few JavaScript operators whose exact semantics the server relies on:
    `||` with a fallback, `??`, `Math.round` of a mean, and `parseInt`. */
module Js {
  import opened Wrappers

  /** `x || d` for an optional string: the empty string is falsy. A missing
      key, `undefined` and `null` are all `None`. */
  function OrString(x: Option<string>, d: string): string {
    if x.Some? && x.value != "" then x.value else d
  }

  /** `x || d` for an optional number: 0 is falsy. */
  function OrNumber(x: Option<int>, d: int): int {
    if x.Some? && x.value != 0 then x.value else d
  }

  /** `x ?? d`. Arrays and objects are always truthy, so `x || d` on an
      optional array is this operator as well. */
  function Coalesce<T>(x: Option<T>, d: T): T {
    if x.Some? then x.value else d
  }

  /** `Math.round(total / n)` for a positive count `n`: the nearest integer
      to the mean, with halves rounded up (towards positive infinity). */
  function RoundedMean(total: int, n: int): (r: int)
    requires n > 0
    ensures 2 * total - n < 2 * n * r <= 2 * total + n
  {
    var q := (2 * total + n) / (2 * n);
    assert 2 * total + n == 2 * n * q + (2 * total + n) % (2 * n);
    q
  }

  /** The mean of values that all lie in [lo, hi] rounds into [lo, hi]. */
  lemma RoundedMeanBounds(total: int, n: int, lo: int, hi: int)
    requires n > 0
    requires n * lo <= total <= n * hi
    ensures lo <= RoundedMean(total, n) <= hi
  {
    var r := RoundedMean(total, n);
    if r < lo {
      MulMonotone(2 * n, r, lo - 1);
      assert false;
    }
    if r > hi {
      MulMonotone(2 * n, hi + 1, r);
      assert false;
    }
  }

  lemma MulMonotone(k: int, a: int, b: int)
    requires k >= 0 && a <= b
    ensures k * a <= k * b
  {
    assert k * b - k * a == k * (b - a);
  }

  // ---- parseInt(s) with no radix ----

  /** StrWhiteSpaceChar of ECMAScript: the characters `parseInt` skips first. */
  predicate IsWhiteSpace(c: char) {
    || '\t' <= c <= '\r'            // tab, line feed, vertical tab, form feed, carriage return
    || c == ' ' || c == '\U{00A0}' || c == '\U{1680}'
    || '\U{2000}' <= c <= '\U{200A}'
    || c == '\U{2028}' || c == '\U{2029}' || c == '\U{202F}' || c == '\U{205F}'
    || c == '\U{3000}' || c == '\U{FEFF}'
  }

  function SkipWhiteSpace(s: string): (r: string)
    ensures |r| <= |s|
  {
    if s != [] && IsWhiteSpace(s[0]) then SkipWhiteSpace(s[1..]) else s
  }

  /** The value of `c` as a digit in base `radix` (10 or 16), or -1. */
  function DigitValue(c: char, radix: int): int
  {
    if '0' <= c <= '9' then (if (c as int) - ('0' as int) < radix then (c as int) - ('0' as int) else -1)
    else if radix == 16 && 'a' <= c <= 'f' then (c as int) - ('a' as int) + 10
    else if radix == 16 && 'A' <= c <= 'F' then (c as int) - ('A' as int) + 10
    else -1
  }

  /** Length of the longest prefix of `s` made of base-`radix` digits. */
  function DigitRun(s: string, radix: int): (n: nat)
    ensures n <= |s|
    ensures forall i :: 0 <= i < n ==> DigitValue(s[i], radix) >= 0
    ensures n < |s| ==> DigitValue(s[n], radix) < 0
  {
    if s != [] && DigitValue(s[0], radix) >= 0 then 1 + DigitRun(s[1..], radix) else 0
  }

  /** The number that a run of digits denotes, most significant first. */
  function DigitsValue(ds: string, radix: int): int
  {
    if ds == [] then 0 else DigitsValue(ds[..|ds| - 1], radix) * radix + DigitValue(ds[|ds| - 1], radix)
  }

  /** `parseInt(s)`: leading white space is skipped, one sign is read, a `0x`
      or `0X` prefix switches to base 16, and the longest run of digits is
      read; no digits gives `NaN`, here `None`. Trailing text is ignored. */
  function ParseInt(s: string): Option<int>
  {
    var t := SkipWhiteSpace(s);
    if t != [] && t[0] == '-' then
      match ParseUnsigned(t[1..])
      case Some(v) => Some(-v)
      case None => None
    else if t != [] && t[0] == '+' then ParseUnsigned(t[1..])
    else ParseUnsigned(t)
  }

  /** The digits after the sign: hexadecimal after `0x`/`0X`, else decimal. */
  function ParseUnsigned(u: string): Option<int>
  {
    var hex := |u| >= 2 && u[0] == '0' && (u[1] == 'x' || u[1] == 'X');
    var radix := if hex then 16 else 10;
    var v := if hex then u[2..] else u;
    var n := DigitRun(v, radix);
    if n == 0 then None else Some(DigitsValue(v[..n], radix))
  }

  /** The decimal notation of a natural number, without leading zeros. */
  function Decimal(n: nat): (s: string)
    ensures |s| > 0
    ensures forall i :: 0 <= i < |s| ==> '0' <= s[i] <= '9'
    ensures s[0] == '0' ==> n == 0
  {
    if n < 10 then [('0' as int + n) as char] else Decimal(n / 10) + [('0' as int + n % 10) as char]
  }

  lemma {:induction false} DecimalValue(n: nat)
    ensures DigitsValue(Decimal(n), 10) == n
  {
    if n >= 10 {
      var s := Decimal(n);
      assert s[..|s| - 1] == Decimal(n / 10);
      DecimalValue(n / 10);
    }
  }

  /** A character that ends a decimal id for `parseInt`: not a digit, and not
      the `x` that would turn a leading `0` into a hexadecimal prefix. */
  predicate EndsNumber(tail: string) {
    tail == [] || (!('0' <= tail[0] <= '9') && tail[0] != 'x' && tail[0] != 'X')
  }

  lemma UnsignedDecimal(n: nat, tail: string)
    requires EndsNumber(tail)
    ensures ParseUnsigned(Decimal(n) + tail) == Some(n)
  {
    var d := Decimal(n);
    var s := d + tail;
    assert s[0] == d[0];
    var hex := |s| >= 2 && s[0] == '0' && (s[1] == 'x' || s[1] == 'X');
    assert !hex by {
      if |d| == 1 {
        if |s| >= 2 { assert s[1] == tail[0]; }
      } else {
        assert s[1] == d[1];
      }
    }
    DigitRunOf(d, tail);
    assert s[..|d|] == d;
    DecimalValue(n);
  }

  /** Text that starts with neither white space nor a sign is read as
      unsigned digits. */
  lemma UnsignedStart(u: string)
    requires u != [] && !IsWhiteSpace(u[0]) && u[0] != '-' && u[0] != '+'
    ensures ParseInt(u) == ParseUnsigned(u)
  {
    assert SkipWhiteSpace(u) == u;
  }

  /** A leading minus sign negates whatever the rest reads as. */
  lemma MinusStart(u: string)
    ensures ParseInt("-" + u) == (match ParseUnsigned(u) case Some(v) => Some(-v) case None => None)
  {
    var s := "-" + u;
    assert s[0] == '-' && !IsWhiteSpace(s[0]);
    assert SkipWhiteSpace(s) == s;
    assert s[1..] == u;
  }

  /** `parseInt` reads back every id rendered in decimal, and ignores whatever
      follows the digits. */
  lemma ParseIntDecimal(n: nat, tail: string)
    requires EndsNumber(tail)
    ensures ParseInt(Decimal(n) + tail) == Some(n)
  {
    var d := Decimal(n);
    assert (d + tail)[0] == d[0];
    UnsignedStart(d + tail);
    UnsignedDecimal(n, tail);
  }

  /** A leading minus sign negates the number read back. */
  lemma ParseIntNegativeDecimal(n: nat, tail: string)
    requires EndsNumber(tail)
    ensures ParseInt("-" + (Decimal(n) + tail)) == Some(-(n as int))
  {
    MinusStart(Decimal(n) + tail);
    UnsignedDecimal(n, tail);
  }

  /** One leading decimal digit adds one to the run. */
  lemma DigitRunCons(c: char, rest: string)
    requires '0' <= c <= '9'
    ensures DigitRun([c] + rest, 10) == 1 + DigitRun(rest, 10)
  {
    assert ([c] + rest)[1..] == rest;
  }

  lemma {:induction false} DigitRunOf(d: string, tail: string)
    requires forall i :: 0 <= i < |d| ==> '0' <= d[i] <= '9'
    requires EndsNumber(tail)
    ensures DigitRun(d + tail, 10) == |d|
  {
    if d != [] {
      assert d + tail == [d[0]] + (d[1..] + tail);
      DigitRunCons(d[0], d[1..] + tail);
      DigitRunOf(d[1..], tail);
    } else {
      assert d + tail == tail;
    }
  }

  /** Text with no digit after the optional white space and sign is `NaN`. */
  lemma ParseIntNoDigits(s: string)
    requires forall i :: 0 <= i < |s| ==> !('0' <= s[i] <= '9')
    ensures ParseInt(s) == None
  {
    NoDigitsSkip(s);
  }

  lemma {:induction false} NoDigitsSkip(s: string)
    requires forall i :: 0 <= i < |s| ==> !('0' <= s[i] <= '9')
    ensures forall i :: 0 <= i < |SkipWhiteSpace(s)| ==> !('0' <= SkipWhiteSpace(s)[i] <= '9')
    ensures |SkipWhiteSpace(s)| > 0 ==> SkipWhiteSpace(s) == s[|s| - |SkipWhiteSpace(s)|..]
  {
    if s != [] && IsWhiteSpace(s[0]) {
      NoDigitsSkip(s[1..]);
    }
  }
}
