/**
 * Decimal numerals: Python's `str(n)`, the `,` and `.Nf` format
 * specifications, and the reading of a decimal numeral that `float(s)` and
 * `int(s)` perform. Numbers are exact (`int`, `real`); rounding to a number
 * of places is round-half-to-even on the exact value.
 */
module Numerals {
  import opened Wrappers
  import opened Ascii

  function Pow10(n: nat): (r: nat)
    ensures r >= 1
  {
    if n == 0 then 1 else 10 * Pow10(n - 1)
  }

  function DigitChar(d: nat): (c: char)
    requires d < 10
    ensures IsDigit(c)
  {
    ('0' as int + d) as char
  }

  predicate AllDigits(s: string)
  {
    forall i | 0 <= i < |s| :: IsDigit(s[i])
  }

  /** The value of a string of decimal digits (0 for the empty string). */
  function ValueOf(s: string): nat
    requires AllDigits(s)
  {
    if s == [] then 0 else 10 * ValueOf(s[..|s| - 1]) + (s[|s| - 1] as int - '0' as int)
  }

  /** `str(n)` for a natural number: its digits, without leading zeros. */
  function Digits(n: nat): (r: string)
    ensures 1 <= |r| && AllDigits(r)
  {
    if n < 10 then [DigitChar(n)] else Digits(n / 10) + [DigitChar(n % 10)]
  }

  /** `s` padded on the left with zeros to at least `width` characters. */
  function PadLeft(s: string, width: nat): (r: string)
    ensures AllDigits(s) ==> AllDigits(r)
    ensures |r| == if |s| < width then width else |s|
  {
    if |s| < width then seq(width - |s|, _ => '0') + s else s
  }

  /** A string of digits in groups of three from the right, separated by commas. */
  function GroupDigits(s: string): (r: string)
    ensures 0 < |s| ==> 0 < |r| && r[0] == s[0] && r[|r| - 1] == s[|s| - 1]
    decreases |s|
  {
    if |s| <= 3 then s else GroupDigits(s[..|s| - 3]) + "," + s[|s| - 3..]
  }

  /** `g` is a numeral grouped by threes: digits, with a comma exactly at every fourth
      place counted back from its end, and none at its start. */
  predicate GroupedByThrees(g: string)
  {
    && g != [] && |g| % 4 != 0
    && forall k | 0 <= k < |g| :: (g[k] == ',' <==> (|g| - k) % 4 == 0) && (g[k] != ',' ==> IsDigit(g[k]))
  }

  /** Grouping a numeral puts a comma before every third digit from the right, and nowhere else. */
  lemma {:induction false} GroupDigitsByThrees(s: string)
    requires s != [] && AllDigits(s)
    ensures GroupedByThrees(GroupDigits(s))
    ensures |GroupDigits(s)| == |s| + (|s| - 1) / 3
    decreases |s|
  {
    if |s| <= 3 {
      ShortGroup(s);
    } else {
      var head := s[..|s| - 3];
      var tail := s[|s| - 3..];
      assert AllDigits(head) && AllDigits(tail) by {
        assert forall k | 0 <= k < |head| :: head[k] == s[k];
        assert forall k | 0 <= k < |tail| :: tail[k] == s[|s| - 3 + k];
      }
      GroupDigitsByThrees(head);
      assert GroupDigits(s) == GroupDigits(head) + "," + tail;
      GroupStep(GroupDigits(head), tail);
    }
  }

  /** One to three digits are grouped already. */
  lemma ShortGroup(s: string)
    requires 0 < |s| <= 3 && AllDigits(s)
    ensures GroupedByThrees(s)
  {
    forall k | 0 <= k < |s|
      ensures (s[k] == ',' <==> (|s| - k) % 4 == 0) && (s[k] != ',' ==> IsDigit(s[k]))
    {
      assert IsDigit(s[k]);
    }
  }

  /** A numeral grouped by threes that does not open with a zero, unless it is "0". */
  predicate GroupedNumeral(g: string)
  {
    GroupedByThrees(g) && (g[0] == '0' ==> |g| == 1)
  }

  /** An optional minus sign and then a grouped numeral. */
  predicate SignedGrouped(t: string)
  {
    t != [] && GroupedNumeral(if t[0] == '-' then t[1..] else t)
  }

  /** A sign followed by a grouped numeral is a signed grouped numeral. */
  lemma SignThenGroup(negative: bool, g: string)
    requires GroupedNumeral(g)
    ensures SignedGrouped(SignText(negative, false) + g)
  {
    var t := SignText(negative, false) + g;
    assert g[0] != ',' by { assert (|g| - 0) % 4 != 0; }
    if negative {
      assert t[1..] == g;
    } else {
      assert t == g;
    }
  }

  /** `format(i, ',')` is a sign and a numeral grouped by threes. */
  lemma IntGroupedByThrees(i: int)
    ensures SignedGrouped(IntGrouped(i))
  {
    var n := if i < 0 then -i else i;
    GroupDigitsByThrees(Digits(n));
    DigitsLead(n);
    SignThenGroup(i < 0, Grouped(n));
  }

  /** `format(x, ',.{places}f')` groups its whole part by threes: what precedes the point
      (or the end, when there are no decimals) is a sign and a grouped numeral. */
  lemma FixedGroupedWhole(x: real, places: nat)
    ensures var f := Fixed(x, places, true, false);
            var tail := if places == 0 then 0 else places + 1;
            tail < |f| && SignedGrouped(f[..|f| - tail])
  {
    var n := Scaled(x, places);
    var w := WholeDigits(n, places);
    var d := DecimalDigits(n, places);
    FixedDigits(x, places, true, false);
    assert GroupedNumeral(GroupDigits(w)) by {
      GroupDigitsByThrees(w);
    }
    GroupedBeforePoint(x < 0.0, GroupDigits(w), d, places, Fixed(x, places, true, false));
  }

  /** What precedes the point part of `sign g.d` is the sign and the grouped numeral. */
  lemma GroupedBeforePoint(negative: bool, g: string, d: string, places: nat, f: string)
    requires GroupedNumeral(g) && |d| == places && f == SignText(negative, false) + g + PointPart(d)
    ensures var tail := if places == 0 then 0 else places + 1;
            tail < |f| && SignedGrouped(f[..|f| - tail])
  {
    SignThenGroup(negative, g);
    var tail := if places == 0 then 0 else places + 1;
    assert |PointPart(d)| == tail;
    assert f[..|f| - tail] == SignText(negative, false) + g;
  }

  /** A comma and three more digits after a grouped numeral keep it grouped. */
  lemma GroupStep(g: string, tail: string)
    requires GroupedByThrees(g) && |tail| == 3 && AllDigits(tail)
    ensures GroupedByThrees(g + "," + tail)
  {
    var r := g + "," + tail;
    forall k | 0 <= k < |r|
      ensures (r[k] == ',' <==> (|r| - k) % 4 == 0) && (r[k] != ',' ==> IsDigit(r[k]))
    {
      if k < |g| {
        assert r[k] == g[k] && |r| - k == (|g| - k) + 4;
      } else if k > |g| {
        assert r[k] == tail[k - |g| - 1];
      }
    }
  }

  /** `format(n, ',')` for a natural number. */
  function Grouped(n: nat): string
  {
    GroupDigits(Digits(n))
  }

  /** `str(i)` for an integer. */
  function IntText(i: int): string
  {
    SignText(i < 0, false) + Digits(if i < 0 then -i else i)
  }

  /** `format(i, ',')` for an integer. */
  function IntGrouped(i: int): string
  {
    SignText(i < 0, false) + Grouped(if i < 0 then -i else i)
  }

  function Abs(x: real): real
  {
    if x < 0.0 then -x else x
  }

  /** The integer nearest to `x`, ties going to the even one. */
  function RoundHalfEven(x: real): (r: int)
    ensures x - 0.5 <= r as real <= x + 0.5
    ensures (r as real - x == 0.5 || x - r as real == 0.5) ==> r % 2 == 0
    ensures 0.0 <= x ==> 0 <= r
  {
    var f := x.Floor;
    var d := x - f as real;
    if d < 0.5 then f
    else if d > 0.5 then f + 1
    else if f % 2 == 0 then f else f + 1
  }

  /** |x| in units of the last of `places` decimal places, rounded. */
  function Scaled(x: real, places: nat): (r: nat)
    ensures Abs(x) * Pow10(places) as real - 0.5 <= r as real <= Abs(x) * Pow10(places) as real + 0.5
  {
    var p := Pow10(places) as real;
    assert 0.0 <= Abs(x) * p by { NonNegativeProduct(Abs(x), p); }
    RoundHalfEven(Abs(x) * p)
  }

  lemma NonNegativeProduct(a: real, b: real)
    requires 0.0 <= a && 0.0 <= b
    ensures 0.0 <= a * b
  {
  }

  /** `x` rounded to `places` decimal places, as the fixed-point format prints it. */
  function RoundTo(x: real, places: nat): (r: real)
    ensures x - 0.5 / Pow10(places) as real <= r <= x + 0.5 / Pow10(places) as real
    ensures OnGridOf(r, places)
  {
    var p := Pow10(places) as real;
    var s := Scaled(x, places) as real;
    ScaleBack(Abs(x), p, s);
    SignedClose(x, s / p, 0.5 / p);
    var q := if x < 0.0 then -(s / p) else s / p;
    OnGrid(Scaled(x, places), places, q);
    q
  }

  /** `r` is a whole number of units of the last of `places` decimal places. */
  predicate OnGridOf(r: real, places: nat)
  {
    IsWhole(r * Pow10(places) as real)
  }

  predicate IsWhole(x: real)
  {
    x.Floor as real == x
  }

  /** A whole number of units of the last of `places` decimal places, either sign, is on
      the grid of those places. */
  lemma OnGrid(n: nat, places: nat, r: real)
    requires var p := Pow10(places) as real; r == n as real / p || r == -(n as real / p)
    ensures OnGridOf(r, places)
  {
    var k: int := if r == n as real / (Pow10(places) as real) then n as int else -(n as int);
    Cancel(n as real, Pow10(places) as real);
    assert r * Pow10(places) as real == k as real;
    WholeOf(k);
  }

  lemma WholeOf(k: int)
    ensures IsWhole(k as real)
  {
  }

  lemma Cancel(a: real, p: real)
    requires 0.0 < p
    ensures (a / p) * p == a && (-(a / p)) * p == -a
  {
  }

  /** `format(x, '[+][,].{places}f')`: the sign (a '-' for negative values, a '+' otherwise
      when `plus` is set), the integer part (grouped by threes when `grouping` is set),
      and `places` decimals. */
  function Fixed(x: real, places: nat, grouping: bool, plus: bool): string
  {
    var n := Scaled(x, places);
    SignText(x < 0.0, plus)
    + (if grouping then GroupDigits(WholeDigits(n, places)) else WholeDigits(n, places))
    + PointPart(DecimalDigits(n, places))
  }

  /** The sign printed: '-' for a negative value, '+' for another when asked for. */
  function SignText(negative: bool, plus: bool): string
  {
    if negative then "-" else if plus then "+" else ""
  }

  /** The digits of n, zero-padded so that at least one digit precedes the last `places`. */
  function Padded(n: nat, places: nat): (r: string)
    ensures places < |r| && AllDigits(r)
  {
    PadLeft(Digits(n), places + 1)
  }

  /** The digits of n / 10^places before the decimal point. */
  function WholeDigits(n: nat, places: nat): string
  {
    Padded(n, places)[..|Padded(n, places)| - places]
  }

  /** The last `places` digits of n, zero-padded. */
  function DecimalDigits(n: nat, places: nat): string
  {
    Padded(n, places)[|Padded(n, places)| - places..]
  }

  /** `repr(v)` of the float v = m / 10^e in positional form: the sign, the whole digits
      (grouped by threes for `format(v, ',')`), a point, and the decimals without trailing
      zeros but at least one digit. */
  function FloatText(m: int, e: nat, grouping: bool): string
  {
    var n := if m < 0 then -m else m;
    SignText(m < 0, false)
    + (if grouping then GroupDigits(WholeDigits(n, e)) else WholeDigits(n, e))
    + "." + TrimZeros(DecimalDigits(n, e))
  }

  /** The decimals without trailing zeros, or "0" when nothing else is left. */
  function TrimZeros(d: string): (r: string)
    ensures 0 < |r| <= if d == [] then 1 else |d|
    ensures AllDigits(d) ==> AllDigits(r)
  {
    if d == [] then "0"
    else if d[|d| - 1] == '0' && |d| > 1 then TrimZeros(d[..|d| - 1])
    else d
  }

  /** A decimal point followed by the decimals, or nothing when there are none. */
  function PointPart(b: string): string
  {
    if b == [] then "" else "." + b
  }

  /** `s` without its commas; how a reader takes the value of a grouped numeral. */
  function WithoutCommas(s: string): (r: string)
    ensures ',' !in s ==> r == s
  {
    if s == [] then [] else (if s[0] == ',' then [] else [s[0]]) + WithoutCommas(s[1..])
  }

  /** `s.strip()`: `s` without leading and trailing whitespace. */
  function Strip(s: string): string
    decreases |s|
  {
    if s != [] && IsSpace(s[0]) then Strip(s[1..])
    else if s != [] && IsSpace(s[|s| - 1]) then Strip(s[..|s| - 1])
    else s
  }

  /** The index of the first `c` in `s`. */
  function IndexOf(s: string, c: char): (r: Option<nat>)
    ensures r.Some? ==> r.value < |s| && s[r.value] == c && c !in s[..r.value]
    ensures r.None? ==> c !in s
  {
    if s == [] then None
    else if s[0] == c then Some(0)
    else match IndexOf(s[1..], c)
      case None => None
      case Some(k) => assert s[..k + 1] == [s[0]] + s[1..][..k]; Some(k + 1)
  }

  /** An optional sign: whether it is '-', and the rest. */
  function SplitSign(t: string): (bool, string)
  {
    if t != [] && t[0] == '-' then (true, t[1..])
    else if t != [] && t[0] == '+' then (false, t[1..])
    else (false, t)
  }

  /** `float(s)` for a plain decimal numeral: surrounding whitespace, an optional sign,
      and digits with at most one decimal point, at least one digit in all. */
  function ParseDecimal(s: string): Option<real>
  {
    var (negative, body) := SplitSign(Strip(s));
    match ParseUnsigned(body)
    case Some(v) => Some(if negative then -v else v)
    case None => None
  }

  /** Digits with at most one decimal point, at least one digit in all. */
  function ParseUnsigned(body: string): Option<real>
  {
    var (whole, fraction) := SplitAtPoint(body);
    if AllDigits(whole) && AllDigits(fraction) && 0 < |whole| + |fraction| then
      Some(DecimalValue(whole, fraction))
    else None
  }

  /** The digits before and after the first decimal point. */
  function SplitAtPoint(body: string): (string, string)
  {
    match IndexOf(body, '.')
    case Some(k) => (body[..k], body[k + 1..])
    case None => (body, "")
  }

  /** The value of the numeral `whole.fraction`. */
  function DecimalValue(whole: string, fraction: string): real
    requires AllDigits(whole) && AllDigits(fraction)
  {
    ValueOf(whole) as real + ValueOf(fraction) as real / Pow10(|fraction|) as real
  }

  /** `int(s)` for a plain integer numeral: surrounding whitespace, an optional sign, digits. */
  function ParseInteger(s: string): Option<int>
  {
    var (negative, body) := SplitSign(Strip(s));
    if 0 < |body| && AllDigits(body) then
      var v: int := ValueOf(body);
      Some(if negative then -v else v)
    else None
  }

  // ---------------------------------------------------------------------------
  // Reading numerals back

  lemma {:induction false} ValueOfAppend(a: string, b: string)
    requires AllDigits(a) && AllDigits(b)
    ensures AllDigits(a + b) && ValueOf(a + b) == ValueOf(a) * Pow10(|b|) + ValueOf(b)
    decreases |b|
  {
    DigitsAppend(a, b);
    if b != [] {
      var b' := b[..|b| - 1];
      var d := b[|b| - 1] as int - '0' as int;
      assert (a + b)[..|a + b| - 1] == a + b';
      assert (a + b)[|a + b| - 1] == b[|b| - 1];
      assert AllDigits(b') by { assert forall k | 0 <= k < |b'| :: b'[k] == b[k]; }
      ValueOfAppend(a, b');
      assert ValueOf(a + b) == 10 * ValueOf(a + b') + d;
      assert ValueOf(b) == 10 * ValueOf(b') + d;
      assert Pow10(|b|) == 10 * Pow10(|b'|);
      ShiftDigit(ValueOf(a), Pow10(|b'|), ValueOf(b'), d);
    } else {
      assert a + b == a;
    }
  }

  lemma DigitsAppend(a: string, b: string)
    requires AllDigits(a) && AllDigits(b)
    ensures AllDigits(a + b)
  {
    assert forall k | 0 <= k < |a + b| :: (a + b)[k] == if k < |a| then a[k] else b[k - |a|];
  }

  /** Appending a digit to both sides of v * p + w. */
  lemma ShiftDigit(v: int, p: int, w: int, d: int)
    ensures 10 * (v * p + w) + d == v * (10 * p) + (10 * w + d)
  {
  }

  /** `str(n)` opens with a zero only for zero itself, which is the single digit "0". */
  lemma {:induction false} DigitsLead(n: nat)
    ensures Digits(n)[0] == '0' <==> n == 0
    ensures n == 0 ==> Digits(n) == "0"
  {
    if n >= 10 {
      DigitsLead(n / 10);
      assert Digits(n)[0] == Digits(n / 10)[0];
    }
  }

  /** The digits of `n` read back as `n`. */
  lemma {:induction false} DigitsValue(n: nat)
    ensures ValueOf(Digits(n)) == n
  {
    if n >= 10 {
      DigitsValue(n / 10);
      var d := Digits(n);
      assert d[..|d| - 1] == Digits(n / 10);
    }
  }

  lemma ZerosValue(k: nat)
    ensures AllDigits(seq(k, _ => '0')) && ValueOf(seq(k, _ => '0')) == 0
    decreases k
  {
    if k > 0 {
      assert seq(k, _ => '0')[..k - 1] == seq(k - 1, _ => '0');
      ZerosValue(k - 1);
    }
  }

  /** Zero padding does not change the value of a numeral. */
  lemma PadLeftValue(s: string, width: nat)
    requires AllDigits(s)
    ensures ValueOf(PadLeft(s, width)) == ValueOf(s)
  {
    if |s| < width {
      var z := seq(width - |s|, _ => '0');
      assert PadLeft(s, width) == z + s;
      ZerosValue(width - |s|);
      ValueOfAppend(z, s);
      assert ValueOf(z) * Pow10(|s|) == 0;
    }
  }

  lemma {:induction false} WithoutCommasAppend(a: string, b: string)
    ensures WithoutCommas(a + b) == WithoutCommas(a) + WithoutCommas(b)
    decreases |a|
  {
    if a != [] {
      var c := if a[0] == ',' then [] else [a[0]];
      assert WithoutCommas(a + b) == c + WithoutCommas(a[1..] + b) by {
        assert (a + b)[0] == a[0] && (a + b)[1..] == a[1..] + b;
      }
      WithoutCommasAppend(a[1..], b);
      assert WithoutCommas(a) == c + WithoutCommas(a[1..]);
    } else {
      assert a + b == b;
    }
  }

  /** Digits contain no commas. */
  lemma {:induction false} DigitsWithoutCommas(s: string)
    requires AllDigits(s)
    ensures WithoutCommas(s) == s
    decreases |s|
  {
    if s != [] {
      DigitsWithoutCommas(s[1..]);
    }
  }

  /** Grouping only inserts commas. */
  lemma {:induction false} GroupDigitsWithoutCommas(s: string)
    requires AllDigits(s)
    ensures WithoutCommas(GroupDigits(s)) == s
    decreases |s|
  {
    if |s| <= 3 {
      DigitsWithoutCommas(s);
    } else {
      var head := s[..|s| - 3];
      var tail := s[|s| - 3..];
      DigitsSplit(s, |s| - 3);
      GroupDigitsWithoutCommas(head);
      DigitsWithoutCommas(tail);
      CommaJoinWithout(GroupDigits(head), head, tail);
      assert GroupDigits(s) == GroupDigits(head) + "," + tail;
    }
  }

  /** Both ends of a string of digits are strings of digits. */
  lemma DigitsSplit(s: string, n: nat)
    requires AllDigits(s) && n <= |s|
    ensures AllDigits(s[..n]) && AllDigits(s[n..]) && s[..n] + s[n..] == s
  {
    assert forall k | 0 <= k < n :: s[..n][k] == s[k];
    assert forall k | 0 <= k < |s| - n :: s[n..][k] == s[n + k];
  }

  /** Dropping the commas from two parts joined by a comma joins what each part drops to. */
  lemma CommaJoinWithout(g: string, head: string, tail: string)
    requires WithoutCommas(g) == head && WithoutCommas(tail) == tail
    ensures WithoutCommas(g + "," + tail) == head + tail
  {
    assert WithoutCommas(",") == [] by {
      assert ","[1..] == [];
    }
    assert WithoutCommas(g + ",") == head by {
      WithoutCommasAppend(g, ",");
    }
    WithoutCommasAppend(g + ",", tail);
  }

  /** A grouped natural number, its commas removed, reads back as the number. */
  lemma GroupedReadsBack(n: nat)
    ensures WithoutCommas(Grouped(n)) == Digits(n)
    ensures ValueOf(WithoutCommas(Grouped(n))) == n
  {
    GroupDigitsWithoutCommas(Digits(n));
    DigitsValue(n);
  }

  /** `int` reads back what `format(i, ',')` prints, once the commas are removed. */
  lemma IntGroupedReadsBack(i: int)
    ensures ParseInteger(WithoutCommas(IntGrouped(i))) == Some(i)
  {
    var n := if i < 0 then -i else i;
    GroupedReadsBack(n);
    WithoutCommasAppend(SignText(i < 0, false), Grouped(n));
    ParseSignedInteger(i < 0, Digits(n));
  }

  /** `int` reads back what `str(i)` prints. */
  lemma IntTextReadsBack(i: int)
    ensures ParseInteger(IntText(i)) == Some(i)
  {
    var n := if i < 0 then -i else i;
    DigitsValue(n);
    ParseSignedInteger(i < 0, Digits(n));
  }

  /** `float` reads back what `str(i)` prints. */
  lemma IntTextReadsBackAsDecimal(i: int)
    ensures ParseDecimal(IntText(i)) == Some(i as real)
  {
    SignedDigitsReadBack(i < 0, if i < 0 then -i else i);
  }

  /** An optional minus sign and `str(n)` read back as a decimal give ±n. */
  lemma SignedDigitsReadBack(negative: bool, n: nat)
    ensures ParseDecimal(SignText(negative, false) + Digits(n)) == Some(if negative then -(n as real) else n as real)
  {
    ParseSignedDecimal(negative, false, Digits(n), "");
    assert SignText(negative, false) + Digits(n) + PointPart("") == SignText(negative, false) + Digits(n);
    WholeDecimalValue(Digits(n));
    DigitsValue(n);
  }

  /** A numeral without decimals has the value of its digits. */
  lemma WholeDecimalValue(a: string)
    requires AllDigits(a)
    ensures DecimalValue(a, "") == ValueOf(a) as real
  {
    assert ValueOf("") == 0 && Pow10(0) == 1;
  }

  lemma ParseSignedInteger(negative: bool, d: string)
    requires 0 < |d| && AllDigits(d)
    ensures var v: int := ValueOf(d);
            ParseInteger(SignText(negative, false) + d) == Some(if negative then -v else v)
  {
    var t := SignText(negative, false) + d;
    assert t[|t| - 1] == d[|d| - 1];
    StripUnpadded(t);
    assert SplitSign(t) == (negative, d) by {
      if negative {
        assert t[1..] == d;
      } else {
        assert t == d && IsDigit(d[0]);
      }
    }
    ParseIntegerOf(t, negative, d);
  }

  lemma ParseIntegerOf(s: string, negative: bool, body: string)
    requires Strip(s) == s && SplitSign(s) == (negative, body) && 0 < |body| && AllDigits(body)
    ensures var v: int := ValueOf(body);
            ParseInteger(s) == Some(if negative then -v else v)
  {
  }

  lemma {:induction false} StripUnpadded(s: string)
    requires s != [] && !IsSpace(s[0]) && !IsSpace(s[|s| - 1])
    ensures Strip(s) == s
  {
  }

  lemma {:induction false} DotAfterDigits(a: string, rest: string)
    requires AllDigits(a)
    ensures IndexOf(a, '.') == None
    ensures IndexOf(a + "." + rest, '.') == Some(|a|)
  {
    if a != [] {
      DotAfterDigits(a[1..], rest);
      assert (a + "." + rest)[1..] == a[1..] + "." + rest;
    } else {
      assert a + "." + rest == "." + rest;
    }
  }

  /** A signed numeral `sign a.b` (or `sign a` when b is empty) reads back as its value. */
  lemma ParseSignedDecimal(negative: bool, plus: bool, a: string, b: string)
    requires 0 < |a| && AllDigits(a) && AllDigits(b)
    ensures ParseDecimal(SignText(negative, plus) + a + PointPart(b))
         == Some(if negative then -DecimalValue(a, b) else DecimalValue(a, b))
  {
    SignedNumeralUnpadded(negative, plus, a, b);
    SignedNumeralSign(negative, plus, a, b);
    NumeralSplitsAtPoint(a, b);
    ParseDecimalOf(SignText(negative, plus) + a + PointPart(b), negative, a + PointPart(b), a, b);
  }

  lemma ParseDecimalOf(s: string, negative: bool, body: string, a: string, b: string)
    requires Strip(s) == s && SplitSign(s) == (negative, body) && SplitAtPoint(body) == (a, b)
    requires AllDigits(a) && AllDigits(b) && 0 < |a| + |b|
    ensures ParseDecimal(s) == Some(if negative then -DecimalValue(a, b) else DecimalValue(a, b))
  {
  }

  lemma SignedNumeralUnpadded(negative: bool, plus: bool, a: string, b: string)
    requires 0 < |a| && AllDigits(a) && AllDigits(b)
    ensures var t := SignText(negative, plus) + a + PointPart(b);
            Strip(t) == t
  {
    var t := SignText(negative, plus) + a + PointPart(b);
    assert !IsSpace(t[0]);
    assert t[|t| - 1] == (if b == [] then a[|a| - 1] else b[|b| - 1]);
    StripUnpadded(t);
  }

  lemma SignedNumeralSign(negative: bool, plus: bool, a: string, b: string)
    requires 0 < |a| && AllDigits(a)
    ensures SplitSign(SignText(negative, plus) + a + PointPart(b)) == (negative, a + PointPart(b))
  {
    var rest := a + PointPart(b);
    assert SignText(negative, plus) + a + PointPart(b) == SignText(negative, plus) + rest;
    SplitSignText(negative, plus, rest);
  }

  lemma SplitSignText(negative: bool, plus: bool, rest: string)
    requires 0 < |rest| && IsDigit(rest[0])
    ensures SplitSign(SignText(negative, plus) + rest) == (negative, rest)
  {
    var t := SignText(negative, plus) + rest;
    if negative || plus {
      assert t[0] == (if negative then '-' else '+') && t[1..] == rest;
    } else {
      assert t == rest;
    }
  }

  lemma NumeralSplitsAtPoint(a: string, b: string)
    requires AllDigits(a)
    ensures SplitAtPoint(a + PointPart(b)) == (a, b)
  {
    if b == [] {
      assert a + PointPart(b) == a;
      assert IndexOf(a, '.') == None by {
        DotAfterDigits(a, b);
      }
    } else {
      var t := a + "." + b;
      assert a + PointPart(b) == t;
      assert IndexOf(t, '.') == Some(|a|) by {
        DotAfterDigits(a, b);
      }
      assert t[..|a|] == a && t[|a| + 1..] == b;
    }
  }

  /** The fixed-point format prints the sign, the whole digits (grouped when asked for),
      and `places` decimals; read as one decimal numeral, the digits are the value rounded
      to `places` decimals. */
  lemma FixedDigits(x: real, places: nat, grouping: bool, plus: bool)
    ensures var n := Scaled(x, places);
            var w := WholeDigits(n, places);
            var d := DecimalDigits(n, places);
            && 0 < |w| && AllDigits(w) && AllDigits(d) && |d| == places
            && (w[0] == '0' ==> |w| == 1)
            && Fixed(x, places, grouping, plus)
               == SignText(x < 0.0, plus) + (if grouping then GroupDigits(w) else w) + PointPart(d)
            && (if x < 0.0 then -DecimalValue(w, d) else DecimalValue(w, d)) == RoundTo(x, places)
  {
    var n := Scaled(x, places);
    SplitDigits(n, places);
    SplitScaled(n, Pow10(places), ValueOf(WholeDigits(n, places)), ValueOf(DecimalDigits(n, places)));
  }

  /** Split before its last `places` digits, the padded numeral spells n: the whole digits
      carry no leading zero and the decimals number exactly `places`. */
  lemma SplitDigits(n: nat, places: nat)
    ensures var w := WholeDigits(n, places);
            var d := DecimalDigits(n, places);
            && 0 < |w| && AllDigits(w) && AllDigits(d) && |d| == places
            && (w[0] == '0' ==> |w| == 1)
            && ValueOf(w) * Pow10(places) + ValueOf(d) == n
  {
    var w := WholeDigits(n, places);
    var d := DecimalDigits(n, places);
    assert w + d == Padded(n, places);
    ValueOfAppend(w, d);
    PaddedValue(n, places);
    WholeDigitsLeading(n, places);
  }

  lemma PaddedValue(n: nat, places: nat)
    ensures ValueOf(Padded(n, places)) == n
  {
    PadLeftValue(Digits(n), places + 1);
    DigitsValue(n);
  }

  lemma WholeDigitsLeading(n: nat, places: nat)
    ensures WholeDigits(n, places)[0] == '0' ==> |WholeDigits(n, places)| == 1
  {
    DigitsLeadingDigit(n);
    if places + 1 <= |Digits(n)| {
      assert Padded(n, places) == Digits(n);
    }
  }

  /** `str(n)` has no leading zero, except for n = 0. */
  lemma {:induction false} DigitsLeadingDigit(n: nat)
    ensures Digits(n)[0] == '0' ==> n == 0
  {
    if n >= 10 {
      DigitsLeadingDigit(n / 10);
    }
  }

  /** Without grouping, `float` reads back what the fixed-point format prints as the
      value rounded to `places` decimals. */
  lemma FixedReadsBack(x: real, places: nat, plus: bool)
    ensures ParseDecimal(Fixed(x, places, false, plus)) == Some(RoundTo(x, places))
  {
    var n := Scaled(x, places);
    FixedDigits(x, places, false, plus);
    ReadsBackAs(Fixed(x, places, false, plus), x < 0.0, plus, WholeDigits(n, places), DecimalDigits(n, places), RoundTo(x, places));
  }

  /** A signed numeral whose digits spell `v` reads back as `v`. */
  lemma ReadsBackAs(f: string, negative: bool, plus: bool, a: string, b: string, v: real)
    requires 0 < |a| && AllDigits(a) && AllDigits(b) && f == SignText(negative, plus) + a + PointPart(b)
    requires (if negative then -DecimalValue(a, b) else DecimalValue(a, b)) == v
    ensures ParseDecimal(f) == Some(v)
  {
    ParseSignedDecimal(negative, plus, a, b);
  }

  /** The fixed-point format prints a '-' for negative values and, when asked for, a '+'
      for the others. */
  lemma FixedSign(x: real, places: nat, grouping: bool, plus: bool)
    ensures (Fixed(x, places, grouping, plus)[0] == '-') <==> x < 0.0
    ensures (Fixed(x, places, grouping, plus)[0] == '+') <==> (plus && 0.0 <= x)
  {
    FixedDigits(x, places, grouping, plus);
  }

  /** `u` is how `.Nf` prints a magnitude: whole digits with no leading zero (a lone "0"
      aside), then, when `places` is not zero, a point and exactly `places` digits. */
  predicate UnsignedFixed(u: string, places: nat)
  {
    var k := |u| - (if places == 0 then 0 else places + 1);
    && 0 < k
    && AllDigits(u[..k]) && (u[0] == '0' ==> k == 1)
    && (0 < places ==> u[k] == '.' && AllDigits(u[k + 1..]))
  }

  /** The fixed-point format without grouping is a sign, when there is one, and then an
      unsigned `.Nf` numeral; `+` always prints a sign. */
  lemma FixedForm(x: real, places: nat, plus: bool)
    ensures !plus && 0.0 <= x ==> UnsignedFixed(Fixed(x, places, false, plus), places)
    ensures var f := Fixed(x, places, false, plus);
            plus || x < 0.0 ==> 1 < |f| && UnsignedFixed(f[1..], places)
  {
    var n := Scaled(x, places);
    FixedDigits(x, places, false, plus);
    SignedForm(Fixed(x, places, false, plus), x < 0.0, plus, WholeDigits(n, places), DecimalDigits(n, places), places);
  }

  /** The sign, when one is printed, before whole digits and the point part. */
  lemma SignedForm(f: string, negative: bool, plus: bool, w: string, d: string, places: nat)
    requires 0 < |w| && AllDigits(w) && (w[0] == '0' ==> |w| == 1) && AllDigits(d) && |d| == places
    requires f == SignText(negative, plus) + w + PointPart(d)
    ensures !plus && !negative ==> UnsignedFixed(f, places)
    ensures plus || negative ==> 1 < |f| && UnsignedFixed(f[1..], places)
  {
    WholeThenPoint(w, d, places);
    Regroup(SignText(negative, plus), w, PointPart(d), f);
    SignedNumeral(f, negative, plus, w + PointPart(d), places);
  }

  /** Concatenation regrouped to the right. */
  lemma Regroup(a: string, b: string, c: string, f: string)
    requires f == a + b + c
    ensures f == a + (b + c)
  {
  }

  /** The sign, when one is printed, before an unsigned `.Nf` numeral. */
  lemma SignedNumeral(f: string, negative: bool, plus: bool, u: string, places: nat)
    requires f == SignText(negative, plus) + u && UnsignedFixed(u, places)
    ensures !plus && !negative ==> UnsignedFixed(f, places)
    ensures plus || negative ==> 1 < |f| && UnsignedFixed(f[1..], places)
  {
    if plus || negative {
      assert f[1..] == u;
    }
  }

  /** Whole digits followed by the point part form an unsigned `.Nf` numeral. */
  lemma WholeThenPoint(w: string, d: string, places: nat)
    requires 0 < |w| && AllDigits(w) && (w[0] == '0' ==> |w| == 1)
    requires AllDigits(d) && |d| == places
    ensures UnsignedFixed(w + PointPart(d), places)
  {
    var u := w + PointPart(d);
    if places == 0 {
      assert u == w && u[..|u|] == w;
    } else {
      assert u == w + "." + d;
      assert |u| - (places + 1) == |w|;
      assert u[..|w|] == w && u[0] == w[0];
      assert u[|w|] == '.' && u[|w| + 1..] == d;
    }
  }

  /** With grouping, the fixed-point format reads back the same once its commas are removed. */
  lemma FixedGroupedReadsBack(x: real, places: nat, plus: bool)
    ensures WithoutCommas(Fixed(x, places, true, plus)) == Fixed(x, places, false, plus)
    ensures ParseDecimal(WithoutCommas(Fixed(x, places, true, plus))) == Some(RoundTo(x, places))
  {
    var n := Scaled(x, places);
    FixedDigits(x, places, true, plus);
    FixedDigits(x, places, false, plus);
    CommasOnlyInGroups(SignText(x < 0.0, plus), WholeDigits(n, places), DecimalDigits(n, places));
    FixedReadsBack(x, places, plus);
  }

  lemma CommasOnlyInGroups(sign: string, w: string, d: string)
    requires ',' !in sign && AllDigits(w) && AllDigits(d)
    ensures WithoutCommas(sign + GroupDigits(w) + PointPart(d)) == sign + w + PointPart(d)
  {
    WithoutCommasAppend(sign + GroupDigits(w), PointPart(d));
    WithoutCommasAppend(sign, GroupDigits(w));
    GroupDigitsWithoutCommas(w);
    assert ',' !in PointPart(d) by {
      if d != [] {
        assert PointPart(d) == "." + d;
        assert forall k :: 0 <= k < |d| ==> d[k] != ',';
      }
    }
  }

  /** `float` reads back the float's repr as the float's value. */
  lemma FloatTextReadsBack(m: int, e: nat)
    ensures ParseDecimal(FloatText(m, e, false)) == Some(FloatValue(m, e))
  {
    var n := if m < 0 then -m else m;
    var w := WholeDigits(n, e);
    var t := TrimZeros(DecimalDigits(n, e));
    FloatDigits(m, e);
    ParseSignedDecimal(m < 0, false, w, t);
  }

  /** The value of the float m * 10^-e. */
  function FloatValue(m: int, e: nat): real
  {
    m as real / Pow10(e) as real
  }

  /** The float's repr spells a sign and a numeral whose value is the float's. */
  lemma FloatDigits(m: int, e: nat)
    ensures var n := if m < 0 then -m else m;
            var w := WholeDigits(n, e);
            var t := TrimZeros(DecimalDigits(n, e));
            && 0 < |w| && AllDigits(w) && AllDigits(t)
            && FloatText(m, e, false) == SignText(m < 0, false) + w + PointPart(t)
            && (if m < 0 then -DecimalValue(w, t) else DecimalValue(w, t)) == FloatValue(m, e)
  {
    var n := if m < 0 then -m else m;
    FloatTextShape(m, e);
    TrimmedValue(n, e);
    NegatedQuotient(m, e, n, DecimalValue(WholeDigits(n, e), TrimZeros(DecimalDigits(n, e))));
  }

  /** The float's repr is its sign, whole digits, a point and trimmed decimals. */
  lemma FloatTextShape(m: int, e: nat)
    ensures var n := if m < 0 then -m else m;
            FloatText(m, e, false)
            == SignText(m < 0, false) + WholeDigits(n, e) + PointPart(TrimZeros(DecimalDigits(n, e)))
  {
  }

  lemma TrimmedValue(n: nat, e: nat)
    ensures var w := WholeDigits(n, e);
            var t := TrimZeros(DecimalDigits(n, e));
            && 0 < |w| && AllDigits(w) && AllDigits(t) && 0 < |t|
            && DecimalValue(w, t) == n as real / Pow10(e) as real
  {
    var w := WholeDigits(n, e);
    var d := DecimalDigits(n, e);
    SplitDigits(n, e);
    TrimZerosValue(d);
    SplitScaled(n, Pow10(e), ValueOf(w), ValueOf(d));
  }

  lemma NegatedQuotient(m: int, e: nat, n: nat, v: real)
    requires n == (if m < 0 then -m else m) && v == n as real / Pow10(e) as real
    ensures (if m < 0 then -v else v) == FloatValue(m, e)
  {
  }

  /** Trailing zeros do not change the value of the decimals. */
  lemma {:induction false} TrimZerosValue(d: string)
    requires AllDigits(d)
    ensures DecimalValue("", TrimZeros(d)) == DecimalValue("", d)
    decreases |d|
  {
    if d != [] && d[|d| - 1] == '0' && |d| > 1 {
      var d' := d[..|d| - 1];
      TrimZerosValue(d');
      assert ValueOf(d) == 10 * ValueOf(d');
      CancelTen(ValueOf(d') as real, Pow10(|d'|) as real);
    }
  }

  lemma CancelTen(a: real, b: real)
    requires 0.0 < b
    ensures (10.0 * a) / (10.0 * b) == a / b
  {
  }

  lemma SplitScaled(scaled: nat, p: nat, whole: nat, fraction: nat)
    requires 0 < p && scaled == whole * p + fraction
    ensures whole as real + fraction as real / p as real == scaled as real / p as real
  {
    assert scaled as real == whole as real * p as real + fraction as real;
  }

  /** The rounded value is within half a unit of the last printed place. */

  lemma SignedClose(x: real, q: real, e: real)
    requires Abs(x) - e <= q <= Abs(x) + e
    ensures x - e <= (if x < 0.0 then -q else q) <= x + e
  {
  }

  lemma ScaleBack(m: real, p: real, r: real)
    requires 0.0 < p && m * p - 0.5 <= r <= m * p + 0.5
    ensures m - 0.5 / p <= r / p <= m + 0.5 / p
  {
    assert r / p - m == (r - m * p) / p;
    DivideBounded(r - m * p, p);
  }

  lemma DivideBounded(d: real, p: real)
    requires 0.0 < p && -0.5 <= d <= 0.5
    ensures -0.5 / p <= d / p <= 0.5 / p
  {
    assert 0.5 / p - d / p == (0.5 - d) / p;
    assert d / p + 0.5 / p == (d + 0.5) / p;
    NonNegativeQuotient(0.5 - d, p);
    NonNegativeQuotient(d + 0.5, p);
  }

  lemma NonNegativeQuotient(a: real, p: real)
    requires 0.0 <= a && 0.0 < p
    ensures 0.0 <= a / p
  {
    assert (a / p) * p == a;
  }
}
