/**
 * The field formatters of the self-assessment file: fixed-width text, zero-padded numbers,
 * fixed-point rates and dates, the ceiling-to-a-multiple rounding used for contribution
 * amounts, and the upper-casing applied to the finished file.
 *
 * Numbers are exact rationals (`real`). Python's `.Nf` format spec rounds the value half to
 * even at the requested precision; `RoundHalfEven` models that rounding on the exact value.
 */
module Formats {

  import opened Results

  // ---------------------------------------------------------------- digits

  function Pow10(n: nat): (r: nat)
    ensures 1 <= r
    ensures 1 <= n ==> 10 <= r
  {
    if n == 0 then 1 else 10 * Pow10(n - 1)
  }

  predicate IsDigit(c: char) { '0' <= c <= '9' }

  predicate AllDigits(s: string) { forall i | 0 <= i < |s| :: IsDigit(s[i]) }

  function DigitChar(d: nat): (c: char)
    requires d < 10
    ensures IsDigit(c) && c as int - '0' as int == d
  {
    ('0' as int + d) as char
  }

  /** Decimal rendering of `n`, most significant digit first, without leading zeros. */
  function Digits(n: nat): (s: string)
    ensures 1 <= |s| && AllDigits(s)
    ensures 1 < |s| ==> s[0] != '0'
  {
    if n < 10 then [DigitChar(n)] else Digits(n / 10) + [DigitChar(n % 10)]
  }

  /** The number the first `n` characters of a digit string denote. */
  function PrefixValue(s: string, n: nat): nat
    requires AllDigits(s) && n <= |s|
  {
    if n == 0 then 0 else 10 * PrefixValue(s, n - 1) + (s[n - 1] as int - '0' as int)
  }

  /** The number a string of decimal digits denotes: the reading side of a numeric field. */
  function DigitsValue(s: string): nat
    requires AllDigits(s)
  {
    PrefixValue(s, |s|)
  }

  /** Appending leaves the value of a prefix alone. */
  lemma {:induction false} PrefixValueAppend(a: string, b: string, n: nat)
    requires AllDigits(a) && AllDigits(b) && n <= |a|
    ensures AllDigits(a + b) && PrefixValue(a + b, n) == PrefixValue(a, n)
  {
    if n > 0 {
      PrefixValueAppend(a, b, n - 1);
      assert (a + b)[n - 1] == a[n - 1];
    }
  }

  lemma {:induction false} DigitsValueOfDigits(n: nat)
    ensures DigitsValue(Digits(n)) == n
  {
    var s := Digits(n);
    if n < 10 {
      assert PrefixValue(s, 0) == 0;
    } else {
      var h := Digits(n / 10);
      var d := [DigitChar(n % 10)];
      assert s == h + d;
      PrefixValueAppend(h, d, |h|);
      DigitsValueOfDigits(n / 10);
      assert s[|h|] == DigitChar(n % 10);
      assert PrefixValue(s, |s|) == 10 * PrefixValue(s, |h|) + n % 10;
    }
  }

  function Repeat(c: char, n: nat): (r: string)
    ensures |r| == n && forall i | 0 <= i < n :: r[i] == c
  {
    if n == 0 then [] else Repeat(c, n - 1) + [c]
  }

  /** A number has at most `w` digits exactly when it is below 10^w. */
  lemma {:induction false} DigitsLength(n: nat, w: nat)
    requires 1 <= w
    ensures |Digits(n)| <= w <==> n < Pow10(w)
  {
    if 10 <= n {
      if w == 1 {
        assert |Digits(n)| == |Digits(n / 10)| + 1;
      } else {
        DigitsLength(n / 10, w - 1);
        assert n / 10 < Pow10(w - 1) <==> n < Pow10(w);
      }
    }
  }

  /** Right-aligns `s` in a field of width `w`, filling with `c`; never truncates. */
  function PadLeft(s: string, c: char, w: nat): (r: string)
    ensures |r| == if |s| < w then w else |s|
    ensures r[|r| - |s|..] == s
    ensures forall i | 0 <= i < |r| - |s| :: r[i] == c
  {
    if |s| < w then Repeat(c, w - |s|) + s else s
  }

  // -------------------------------------------------------------- rounding

  function Abs(x: real): (r: real)
    ensures 0.0 <= r && (r == x || r == -x)
  {
    if x < 0.0 then -x else x
  }

  /** Rounds to the nearest integer; an exact tie goes to the even neighbour. */
  function RoundHalfEven(x: real): (r: int)
    ensures x - 0.5 <= r as real <= x + 0.5
    ensures (r as real == x - 0.5 || r as real == x + 0.5) ==> r % 2 == 0
    ensures 0.0 <= x ==> 0 <= r
  {
    var f := x.Floor;
    var d := x - f as real;
    if d < 0.5 then f
    else if 0.5 < d then f + 1
    else if f % 2 == 0 then f
    else f + 1
  }

  /** The two ensures of RoundHalfEven determine it: nothing else rounds `x` the same way. */
  lemma RoundHalfEvenUnique(x: real, k: int)
    requires x - 0.5 <= k as real <= x + 0.5
    requires (k as real == x - 0.5 || k as real == x + 0.5) ==> k % 2 == 0
    ensures k == RoundHalfEven(x)
  {
  }

  function Ceil(x: real): (c: int)
    ensures x <= c as real < x + 1.0
  {
    if x.Floor as real == x then x.Floor else x.Floor + 1
  }

  /** `_round_to_nearest`: `value` rounded up to a multiple of `nearest`. */
  function RoundToNearest(value: real, nearest: int): (r: int)
    requires 0 < nearest
    ensures r % nearest == 0
    ensures value <= r as real
    ensures (r - nearest) as real < value
  {
    var c := Ceil(value / nearest as real);
    CeilTimes(value, nearest, c);
    c * nearest
  }

  lemma CeilTimes(v: real, n: int, c: int)
    requires 0 < n
    requires v / n as real <= c as real < v / n as real + 1.0
    ensures (c * n) % n == 0
    ensures v <= (c * n) as real
    ensures (c * n - n) as real < v
  {
    var q := v / n as real;
    DivTimes(v, n as real);
    ScaleLe(q, c as real, n as real);
    ScaleLt(c as real - 1.0, q, n as real);
    MulToReal(c, n);
    MulMod(c, n);
  }

  lemma DivTimes(v: real, n: real)
    requires 0.0 < n
    ensures (v / n) * n == v
  {
  }

  lemma ScaleLe(a: real, b: real, n: real)
    requires 0.0 < n && a <= b
    ensures a * n <= b * n
  {
  }

  lemma ScaleLt(a: real, b: real, n: real)
    requires 0.0 < n && a < b
    ensures a * n < b * n
  {
  }

  lemma MulToReal(c: int, n: int)
    ensures (c * n) as real == c as real * n as real
    ensures (c * n - n) as real == (c as real - 1.0) * n as real
  {
  }

  lemma MulMod(c: int, n: int)
    requires 0 < n
    ensures (c * n) % n == 0
  {
    var q, r := (c * n) / n, (c * n) % n;
    assert n * (c - q) == r by {
      assert c * n == n * q + r;
    }
    if c - q >= 1 {
      MulAtLeast(n, c - q);
    } else if c - q <= -1 {
      MulAtLeast(n, q - c);
    }
  }

  lemma MulAtLeast(n: int, k: int)
    requires 0 < n && 1 <= k
    ensures n <= n * k
  {
  }

  /** The result is the LEAST multiple of `nearest` that is at least `value`. */
  lemma RoundToNearestIsLeast(value: real, nearest: int, m: int)
    requires 0 < nearest
    requires m % nearest == 0 && value <= m as real
    ensures RoundToNearest(value, nearest) <= m
  {
    var r := RoundToNearest(value, nearest);
    var k, c := m / nearest, r / nearest;
    assert m == nearest * k && r == nearest * c;
    if k < c {
      MulAtLeast(nearest, c - k);
      assert false;
    }
  }

  lemma RoundToNearestExamples()
    ensures RoundToNearest(3211.0, 100) == 3300
    ensures RoundToNearest(100.0, 100) == 100
    ensures RoundToNearest(0.0, 100) == 0
  {
  }

  // ------------------------------------------------------------ formatters

  /** `_format_string`: left-aligned, space-padded, truncated to `length`. An absent value is "". */
  function FormatString(s: string, length: nat): (r: string)
    ensures |r| == length
    ensures length <= |s| ==> r == s[..length]
    ensures |s| < length ==> r[..|s|] == s && forall i | |s| <= i < length :: r[i] == ' '
  {
    if length <= |s| then s[..length] else s + Repeat(' ', length - |s|)
  }

  /** An empty text field is all spaces. */
  lemma BlankField(n: nat)
    ensures FormatString("", n) == Repeat(' ', n)
  {
  }

  /** Strips trailing spaces: how a fixed-width reader recovers a text field. */
  function TrimRight(s: string): (r: string)
    ensures |r| <= |s| && r == s[..|r|]
    ensures r == [] || r[|r| - 1] != ' '
    ensures forall i | |r| <= i < |s| :: s[i] == ' '
  {
    if s == [] || s[|s| - 1] != ' ' then s else TrimRight(s[..|s| - 1])
  }

  /** A text that fits and does not end in a space is read back unchanged. */
  lemma FormatStringReadBack(s: string, length: nat)
    requires |s| <= length
    requires s == [] || s[|s| - 1] != ' '
    ensures TrimRight(FormatString(s, length)) == s
  {
    assert FormatString(s, length)[..|s|] == s;
  }

  /** "-" for a negative value: Python keeps the sign even when the digits round to zero. */
  function SignOf(x: real): string
  {
    if x < 0.0 then "-" else ""
  }

  /** The rendering of a number before padding: sign and rounded magnitude. */
  function NumberText(x: real): string
  {
    SignOf(x) + Digits(RoundHalfEven(Abs(x)))
  }

  /** The value needs no more than `length` characters. */
  predicate NumberFits(x: real, length: nat)
  {
    |NumberText(x)| <= length
  }

  /** A digit string, zero-filled on the left to width `w`, still denotes the same number. */
  lemma ZeroPaddedValue(t: string, w: nat)
    requires AllDigits(t) && |t| <= w
    ensures AllDigits(PadLeft(t, '0', w)) && DigitsValue(PadLeft(t, '0', w)) == DigitsValue(t)
  {
    if |t| < w {
      LeadingZeros(w - |t|, t);
    }
  }

  /** Leading zeros add nothing to the value. */
  lemma LeadingZeros(k: nat, t: string)
    requires AllDigits(t)
    ensures AllDigits(Repeat('0', k) + t) && DigitsValue(Repeat('0', k) + t) == DigitsValue(t)
  {
    ZerosPrefixValue(k, t, |t|);
  }

  lemma {:induction false} ZerosPrefixValue(k: nat, t: string, n: nat)
    requires AllDigits(t) && n <= |t|
    ensures AllDigits(Repeat('0', k) + t)
    ensures PrefixValue(Repeat('0', k) + t, k + n) == PrefixValue(t, n)
  {
    var s := Repeat('0', k) + t;
    if n == 0 {
      ZerosValue(k, s, k);
    } else {
      ZerosPrefixValue(k, t, n - 1);
      assert s[k + n - 1] == t[n - 1];
    }
  }

  lemma {:induction false} ZerosValue(k: nat, s: string, n: nat)
    requires AllDigits(s) && n <= k <= |s| && s[..k] == Repeat('0', k)
    ensures PrefixValue(s, n) == 0
  {
    if n > 0 {
      assert s[n - 1] == s[..k][n - 1];
      ZerosValue(k, s, n - 1);
    }
  }

  lemma NumberTextFacts(x: real, length: nat)
    ensures 0.0 <= x ==> NumberText(x) == Digits(RoundHalfEven(x))
    ensures 1 <= length && 0.0 <= x && RoundHalfEven(x) < Pow10(length) ==>
              |NumberText(x)| <= length && AllDigits(PadLeft(NumberText(x), '0', length))
              && DigitsValue(PadLeft(NumberText(x), '0', length)) == RoundHalfEven(x)
    ensures 0.0 <= x && Pow10(length) <= RoundHalfEven(x) ==> length < |NumberText(x)|
  {
    if 0.0 <= x {
      var m := RoundHalfEven(x);
      assert Abs(x) == x;
      if 1 <= length {
        DigitsLength(m, length);
        if m < Pow10(length) {
          ZeroPaddedValue(Digits(m), length);
          DigitsValueOfDigits(m);
        }
      }
    }
  }

  /**
   * `_format_number` (`"{:>0<length>.0f}"`): rounded half to even, right-aligned, zero-filled
   * on the left (to the left of a minus sign too). A value too wide is NOT truncated.
   */
  function FormatNumber(x: real, length: nat): (r: string)
    ensures length <= |r|
    ensures |r| == length <==> NumberFits(x, length)
  {
    NumberTextFacts(x, length);
    PadLeft(NumberText(x), '0', length)
  }

  /**
   * Reading a numeric field back: a non-negative value that fits is its rounded value in
   * exactly `length` digits; one too wide is printed in full, never truncated.
   */
  lemma FormatNumberReadBack(x: real, length: nat)
    requires 0.0 <= x
    ensures 1 <= length && RoundHalfEven(x) < Pow10(length) ==>
              var r := FormatNumber(x, length);
              |r| == length && AllDigits(r) && DigitsValue(r) == RoundHalfEven(x)
    ensures Pow10(length) <= RoundHalfEven(x) ==> FormatNumber(x, length) == Digits(RoundHalfEven(x))
  {
    NumberTextFacts(x, length);
  }

  /** The fraction digits of `x` at precision `p`, as the rounded integer x * 10^p. */
  function Scaled(x: real, p: nat): (m: int)
    ensures 0.0 <= x ==> 0 <= m
  {
    RoundHalfEven(x * Pow10(p) as real)
  }

  /** A rate renders in exactly `length` characters: non-negative and below 10 once rounded. */
  predicate FloatFits(x: real, length: nat)
    requires 2 < length
  {
    0.0 <= x && Scaled(x, length - 2) < 10 * Pow10(length - 2)
  }

  /** The digits of `m` (at least p + 1 of them), with the point placed before the last `p`. */
  function PointText(m: nat, p: nat): string
  {
    var s := PadLeft(Digits(m), '0', p + 1);
    s[..|s| - p] + "." + s[|s| - p..]
  }

  /** Sign, then the magnitude scaled by 10^p and rounded, as point text. */
  function FloatText(x: real, p: nat): string
  {
    SignOf(x) + PointText(Scaled(Abs(x), p), p)
  }

  lemma FloatTextLength(x: real, p: nat)
    requires 1 <= p
    ensures p + 2 <= |FloatText(x, p)|
    ensures |FloatText(x, p)| == p + 2 <==> 0.0 <= x && Scaled(x, p) < 10 * Pow10(p)
  {
    var m := Scaled(Abs(x), p);
    var s := PadLeft(Digits(m), '0', p + 1);
    assert |PointText(m, p)| == |s| + 1;
    assert Pow10(p + 1) == 10 * Pow10(p);
    DigitsLength(m, p + 1);
    assert 0.0 <= x ==> Abs(x) == x;
  }

  lemma FloatTextValue(x: real, p: nat)
    requires 1 <= p
    requires 0.0 <= x && Scaled(x, p) < Pow10(p)
    ensures FloatText(x, p)[..2] == "0." && AllDigits(FloatText(x, p)[2..])
    ensures DigitsValue(FloatText(x, p)[2..]) == Scaled(x, p)
  {
    assert Abs(x) == x && SignOf(x) == "";
    var m := Scaled(x, p);
    PointTextValue(m, p);
    assert FloatText(x, p) == PointText(m, p);
  }

  /** Below 10^p, point text is "0." and then `m` at width `p`. */
  lemma PointTextValue(m: nat, p: nat)
    requires 1 <= p && m < Pow10(p)
    ensures PointText(m, p)[..2] == "0." && AllDigits(PointText(m, p)[2..])
    ensures DigitsValue(PointText(m, p)[2..]) == m
  {
    var d := Digits(m);
    DigitsLength(m, p);
    PadLeftTail(d, p + 1);
    var s := PadLeft(d, '0', p + 1);
    assert PointText(m, p) == s[..1] + "." + s[1..];
    LeadingZeros(p - |d|, d);
    DigitsValueOfDigits(m);
  }

  /** Padding to a width beyond the text puts a fill character first, and pads the rest by one less. */
  lemma PadLeftTail(t: string, w: nat)
    requires |t| < w
    ensures PadLeft(t, '0', w)[..1] == "0"
    ensures PadLeft(t, '0', w)[1..] == Repeat('0', w - 1 - |t|) + t
  {
    var s := PadLeft(t, '0', w);
    assert s == Repeat('0', w - |t|) + t;
    assert s[0] == '0';
    assert s[1..] == Repeat('0', w - 1 - |t|) + t;
  }

  /**
   * `_format_float` (`"{:>01.<length-2>f}"`): the digits before the point, a point, and
   * `length - 2` fraction digits, rounded half to even. A field width of 1 never pads.
   */
  function FormatFloat(x: real, length: nat): (r: string)
    requires 2 < length
    ensures length <= |r|
    ensures |r| == length <==> FloatFits(x, length)
  {
    FloatTextLength(x, length - 2);
    FloatText(x, length - 2)
  }

  /** Reading a rate field back: below 1, it is "0." and the rounded fraction digits. */
  lemma FormatFloatReadBack(x: real, length: nat)
    requires 2 < length
    requires 0.0 <= x && Scaled(x, length - 2) < Pow10(length - 2)
    ensures var r := FormatFloat(x, length);
            |r| == length && r[..2] == "0." && AllDigits(r[2..])
            && DigitsValue(r[2..]) == Scaled(x, length - 2)
  {
    FloatTextLength(x, length - 2);
    FloatTextValue(x, length - 2);
  }

  // ------------------------------------------------------------------ dates

  datatype Date = Date(year: nat, month: nat, day: nat)

  predicate ValidDate(d: Date)
  {
    1000 <= d.year <= 9999 && 1 <= d.month <= 12 && 1 <= d.day <= 31
  }

  /** Calendar order of dates. */
  predicate DateLe(a: Date, b: Date)
  {
    a.year < b.year
    || (a.year == b.year && (a.month < b.month || (a.month == b.month && a.day <= b.day)))
  }

  lemma RoundOfInteger(k: int)
    ensures RoundHalfEven(k as real) == k
  {
  }

  /** Zero at width `w` is `w` zero characters. */
  lemma ZeroNumber(w: nat)
    requires 1 <= w
    ensures FormatNumber(0.0, w) == Repeat('0', w)
  {
    RoundOfInteger(0);
    assert NumberText(0.0) == ['0'];
  }

  /** A zero rate at the two rate widths of the file. */
  lemma ZeroRates()
    ensures FormatFloat(0.0, 7) == "0.00000"
    ensures FormatFloat(0.0, 9) == "0.0000000"
  {
    ZeroFloat(5);
    ZeroFloat(7);
  }

  /** Zero with `p` decimals is "0." and `p` zeros. */
  lemma ZeroFloat(p: nat)
    requires 1 <= p
    ensures FormatFloat(0.0, p + 2) == "0." + Repeat('0', p)
  {
    ZeroScaled(p);
    ZeroPoint(p);
    assert FloatText(0.0, p) == "" + PointText(0, p);
  }

  lemma ZeroPoint(p: nat)
    ensures PointText(0, p) == "0." + Repeat('0', p)
  {
    assert Digits(0) == "0";
    ZeroPad(p);
    RepeatSplit('0', p);
  }

  lemma ZeroPad(p: nat)
    ensures PadLeft("0", '0', p + 1) == Repeat('0', p + 1)
  {
    assert Repeat('0', p + 1) == Repeat('0', p) + ['0'];
  }

  lemma RepeatSplit(c: char, n: nat)
    ensures Repeat(c, n + 1)[..1] == [c] && Repeat(c, n + 1)[1..] == Repeat(c, n)
  {
  }

  lemma ZeroScaled(p: nat)
    ensures Scaled(Abs(0.0), p) == 0
  {
    assert 0.0 * Pow10(p) as real == 0.0;
    RoundOfInteger(0);
  }

  /** A non-negative integer below 10^w, zero-filled to width w, reads back as itself. */
  lemma PaddedNumber(k: nat, w: nat)
    requires 1 <= w && k < Pow10(w)
    ensures |FormatNumber(k as real, w)| == w
    ensures AllDigits(FormatNumber(k as real, w)) && DigitsValue(FormatNumber(k as real, w)) == k
  {
    RoundOfInteger(k);
    FormatNumberReadBack(k as real, w);
  }

  /** `strftime("%Y-%m")`. */
  function FormatYearMonth(d: Date): (r: string)
    ensures ValidDate(d) ==>
              |r| == 7 && r[4] == '-' && AllDigits(r[..4]) && DigitsValue(r[..4]) == d.year
              && AllDigits(r[5..]) && DigitsValue(r[5..]) == d.month
  {
    var y := FormatNumber(d.year as real, 4);
    var m := FormatNumber(d.month as real, 2);
    if ValidDate(d) then
      assert Pow10(4) == 10000 && Pow10(2) == 100;
      PaddedNumber(d.year, 4);
      PaddedNumber(d.month, 2);
      assert (y + "-" + m)[..4] == y && (y + "-" + m)[5..] == m;
      y + "-" + m
    else y + "-" + m
  }

  /** `strftime("%Y-%m-%d")` read as three numbers joined by dashes. */
  function JoinDate(y: string, m: string, d: string): (r: string)
    requires |y| == 4 && |m| == 2 && |d| == 2
    ensures |r| == 10 && r[4] == '-' && r[7] == '-'
    ensures r[..4] == y && r[5..7] == m && r[8..] == d
  {
    y + "-" + m + "-" + d
  }

  /** The year, month and day of a calendar date fit four, two and two digits. */
  lemma DatePartWidths(dt: Date)
    ensures ValidDate(dt) ==>
              && |FormatNumber(dt.year as real, 4)| == 4
              && |FormatNumber(dt.month as real, 2)| == 2
              && |FormatNumber(dt.day as real, 2)| == 2
  {
    if ValidDate(dt) {
      assert Pow10(4) == 10000 && Pow10(2) == 100;
      PaddedNumber(dt.year, 4);
      PaddedNumber(dt.month, 2);
      PaddedNumber(dt.day, 2);
    }
  }

  /** `_format_datetime`: `YYYY-MM-DD`, or ten spaces when there is no date. */
  function FormatDate(d: Option<Date>): (r: string)
    ensures d.None? ==> r == Repeat(' ', 10)
    ensures d.Some? && ValidDate(d.value) ==> |r| == 10
  {
    match d
    case None => Repeat(' ', 10)
    case Some(dt) =>
      DatePartWidths(dt);
      FormatNumber(dt.year as real, 4) + "-" + FormatNumber(dt.month as real, 2) + "-"
        + FormatNumber(dt.day as real, 2)
  }

  /** Reading a date field back gives the year, month and day, separated by dashes. */
  lemma FormatDateReadBack(dt: Date)
    requires ValidDate(dt)
    ensures var r := FormatDate(Some(dt));
            && |r| == 10 && r[4] == '-' && r[7] == '-'
            && AllDigits(r[..4]) && DigitsValue(r[..4]) == dt.year
            && AllDigits(r[5..7]) && DigitsValue(r[5..7]) == dt.month
            && AllDigits(r[8..]) && DigitsValue(r[8..]) == dt.day
  {
    var y := FormatNumber(dt.year as real, 4);
    var m := FormatNumber(dt.month as real, 2);
    var dd := FormatNumber(dt.day as real, 2);
    assert Pow10(4) == 10000 && Pow10(2) == 100;
    PaddedNumber(dt.year, 4);
    PaddedNumber(dt.month, 2);
    PaddedNumber(dt.day, 2);
    assert FormatDate(Some(dt)) == JoinDate(y, m, dd);
  }

  // ------------------------------------------------------------ upper case

  /**
   * Upper case of one character, for ASCII and the single-character Latin-1 letters.
   * The set is the one a Spanish-language file uses (accents and the tilde n).
   */
  function UpperChar(c: char): char
  {
    if 'a' <= c <= 'z' then (c as int - 32) as char
    else if 'à' <= c <= 'þ' && c != '÷' then (c as int - 32) as char
    else c
  }

  /** `str.upper` applied to the whole file: a character-by-character map. */
  function Upper(s: string): (r: string)
    ensures |r| == |s| && forall i | 0 <= i < |s| :: r[i] == UpperChar(s[i])
  {
    seq(|s|, i requires 0 <= i < |s| => UpperChar(s[i]))
  }

  lemma UpperIdempotent(s: string)
    ensures Upper(Upper(s)) == Upper(s)
  {
  }

  /** Upper-casing commutes with taking a slice, so fixed offsets survive it. */
  lemma UpperSlice(s: string, i: nat, j: nat)
    requires i <= j <= |s|
    ensures Upper(s)[i..j] == Upper(s[i..j])
  {
  }

  lemma UpperConcat(a: string, b: string)
    ensures Upper(a + b) == Upper(a) + Upper(b)
  {
  }

  /** Digits, spaces, the minus sign and the point are left alone by upper-casing. */
  lemma UpperKeepsNumbers(s: string)
    requires forall i | 0 <= i < |s| :: IsDigit(s[i]) || s[i] in " -.\r\n"
    ensures Upper(s) == s
  {
  }

  // -------------------------------------------------- text positions

  /** A prefix keeps every slice it covers. */
  lemma PrefixSlice(p: string, s: string, lo: int, hi: int)
    ensures p <= s && 0 <= lo <= hi <= |p| ==> s[lo..hi] == p[lo..hi]
  {
  }

  /** A prefix keeps every character it covers. */
  lemma PrefixAt(p: string, s: string, i: int)
    ensures p <= s && 0 <= i < |p| ==> s[i] == p[i]
  {
  }

  lemma PrefixTrans(a: string, b: string, c: string)
    ensures a <= b && b <= c ==> a <= c
  {
  }

  /** Appending keeps the text so far and puts the piece at [`lo`, `hi`). */
  lemma Placed(p: string, s: string, lo: int, hi: int)
    ensures p <= p + s
    ensures lo == |p| && hi == |p| + |s| ==> (p + s)[lo..hi] == s
  {
  }

  /** Appending keeps the text so far. */
  lemma Grows(p: string, s: string)
    ensures p <= p + s
  {
  }
}
