/**
 * Local date and time as the clock reports it, and the `strftime` layouts the
 * program prints it in. Only four-digit years are modelled, where every C
 * library prints `%Y` the same way.
 */
module Clock {
  import opened Wrappers
  import opened Ascii
  import opened Numerals

  datatype DateTime = DateTime(year: nat, month: nat, day: nat, hour: nat, minute: nat, second: nat)

  predicate Valid(d: DateTime)
  {
    1000 <= d.year <= 9999 && 1 <= d.month <= 12 && 1 <= d.day <= 31
    && d.hour < 24 && d.minute < 60 && d.second < 60
  }

  /** A field zero-padded to `width` digits, as `%Y` (4), `%m`, `%d`, `%H`, `%M`, `%S` (2) print it. */
  function FieldText(n: nat, width: nat): string
  {
    PadLeft(Digits(n), width)
  }

  /** `strftime("%Y%m%d_%H%M%S")` */
  function CompactStamp(d: DateTime): string
  {
    FieldText(d.year, 4) + FieldText(d.month, 2) + FieldText(d.day, 2) + "_"
    + FieldText(d.hour, 2) + FieldText(d.minute, 2) + FieldText(d.second, 2)
  }

  /** `strftime("%Y-%m-%d %H:%M:%S")` */
  function ReadableStamp(d: DateTime): string
  {
    FieldText(d.year, 4) + "-" + FieldText(d.month, 2) + "-" + FieldText(d.day, 2) + " "
    + FieldText(d.hour, 2) + ":" + FieldText(d.minute, 2) + ":" + FieldText(d.second, 2)
  }

  /** `strftime("%Y-%m-%d %H:%M")` */
  function MinuteStamp(d: DateTime): string
  {
    FieldText(d.year, 4) + "-" + FieldText(d.month, 2) + "-" + FieldText(d.day, 2) + " "
    + FieldText(d.hour, 2) + ":" + FieldText(d.minute, 2)
  }

  /** Reads a `%Y%m%d_%H%M%S` stamp back into its fields. */
  function ParseCompactStamp(s: string): Option<DateTime>
  {
    if |s| == 15 && s[8] == '_' && AllDigits(s[..8]) && AllDigits(s[9..]) then
      Some(DateTime(ValueOf(s[..4]), ValueOf(s[4..6]), ValueOf(s[6..8]),
                    ValueOf(s[9..11]), ValueOf(s[11..13]), ValueOf(s[13..])))
    else None
  }

  /** A field of a valid time prints in exactly its width, and reads back as its value. */
  lemma FieldReadsBack(n: nat, width: nat)
    requires 1 <= width && n < Pow10(width)
    ensures |FieldText(n, width)| == width && AllDigits(FieldText(n, width))
    ensures ValueOf(FieldText(n, width)) == n
  {
    DigitsWidth(n, width);
    PadLeftValue(Digits(n), width);
    DigitsValue(n);
  }

  lemma {:induction false} DigitsWidth(n: nat, width: nat)
    requires 1 <= width && n < Pow10(width)
    ensures |Digits(n)| <= width
  {
    if n >= 10 {
      assert n / 10 < Pow10(width - 1);
      DigitsWidth(n / 10, width - 1);
    }
  }

  /** The compact stamp is fifteen characters and reads back as the time it was printed from. */
  lemma CompactStampReadsBack(d: DateTime)
    requires Valid(d)
    ensures |CompactStamp(d)| == 15
    ensures ParseCompactStamp(CompactStamp(d)) == Some(d)
  {
    FieldReadsBack(d.year, 4);
    FieldReadsBack(d.month, 2);
    FieldReadsBack(d.day, 2);
    FieldReadsBack(d.hour, 2);
    FieldReadsBack(d.minute, 2);
    FieldReadsBack(d.second, 2);
    StampSlices(FieldText(d.year, 4), FieldText(d.month, 2), FieldText(d.day, 2),
                FieldText(d.hour, 2), FieldText(d.minute, 2), FieldText(d.second, 2));
  }

  lemma StampSlices(y: string, mo: string, d: string, h: string, mi: string, s: string)
    requires |y| == 4 && |mo| == 2 && |d| == 2 && |h| == 2 && |mi| == 2 && |s| == 2
    requires AllDigits(y) && AllDigits(mo) && AllDigits(d) && AllDigits(h) && AllDigits(mi) && AllDigits(s)
    ensures var t := y + mo + d + "_" + h + mi + s;
            && |t| == 15 && t[8] == '_' && AllDigits(t[..8]) && AllDigits(t[9..])
            && t[..4] == y && t[4..6] == mo && t[6..8] == d
            && t[9..11] == h && t[11..13] == mi && t[13..] == s
  {
    var t := y + mo + d + "_" + h + mi + s;
    assert t[..8] == y + mo + d;
    assert t[9..] == h + mi + s;
  }

  /** Two valid times with the same compact stamp are the same time. */
  lemma CompactStampInjective(d: DateTime, e: DateTime)
    requires Valid(d) && Valid(e) && CompactStamp(d) == CompactStamp(e)
    ensures d == e
  {
    CompactStampReadsBack(d);
    CompactStampReadsBack(e);
  }
}
