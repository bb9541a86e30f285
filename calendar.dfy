/** Calendar months of day numbers (TruncMonth) and the "%Y-%m-%d" text of
    a month's first day, which the trend views and API return. */
module Calendar {
  import opened Common

  /** The (year, month) of a day number (days since 1970-01-01), by the
      proleptic Gregorian calendar, encoded as year * 12 + (month - 1).
      The lemmas below check it across a month end, the epoch and a leap
      day. */
  function MonthIndex(d: Day): int
  {
    var z := d + 719468;
    var era := z / 146097;
    var doe := z - era * 146097;
    var yoe := (doe - doe / 1460 + doe / 36524 - doe / 146096) / 365;
    var doy := doe - (365 * yoe + yoe / 4 - yoe / 100);
    var mp := (5 * doy + 2) / 153;
    var month := if mp < 10 then mp + 3 else mp - 9;
    var year := yoe + era * 400 + (if month <= 2 then 1 else 0);
    year * 12 + (month - 1)
  }

  /** 1970-01-31 is in January 1970. */
  lemma MonthIndexJanuaryEnd()
    ensures MonthIndex(30) == 1970 * 12
  {
    var doe := 30 + 719468 - 4 * 146097;
    assert (30 + 719468) / 146097 == 4 && doe == 135110;
    assert doe / 1460 == 92 && doe / 36524 == 3 && doe / 146096 == 0;
    assert (doe - 89) / 365 == 369 && doe - 134774 == 336 && (5 * 336 + 2) / 153 == 10;
  }

  /** 1970-02-01, the next day, is in February 1970. */
  lemma MonthIndexFebruaryStart()
    ensures MonthIndex(31) == 1970 * 12 + 1
  {
    var doe := 31 + 719468 - 4 * 146097;
    assert (31 + 719468) / 146097 == 4 && doe == 135111;
    assert doe / 1460 == 92 && doe / 36524 == 3 && doe / 146096 == 0;
    assert (doe - 89) / 365 == 369 && doe - 134774 == 337 && (5 * 337 + 2) / 153 == 11;
  }

  /** 1969-12-31, the day before the epoch, is in December 1969. */
  lemma MonthIndexBeforeEpoch()
    ensures MonthIndex(-1) == 1969 * 12 + 11
  {
    var doe := -1 + 719468 - 4 * 146097;
    assert (-1 + 719468) / 146097 == 4 && doe == 135079;
    assert doe / 1460 == 92 && doe / 36524 == 3 && doe / 146096 == 0;
    assert (doe - 89) / 365 == 369 && doe - 134774 == 305 && (5 * 305 + 2) / 153 == 9;
  }

  /** 2000-02-29 is in February and 2000-03-01 in March. */
  lemma MonthIndexLeapDay()
    ensures MonthIndex(11016) == 2000 * 12 + 1 && MonthIndex(11017) == 2000 * 12 + 2
  {
    assert (11016 + 719468) / 146097 == 4 && (11017 + 719468) / 146097 == 5;
    var doe := 11016 + 719468 - 4 * 146097;
    assert doe == 146096;
    assert doe / 1460 == 100 && doe / 36524 == 4 && doe / 146096 == 1;
    assert (doe - 97) / 365 == 399 && doe - 145731 == 365 && (5 * 365 + 2) / 153 == 11;
    assert 11017 + 719468 - 5 * 146097 == 0;
  }

  /** 2026-10-16 is in October 2026. */
  lemma MonthIndexOctober2026()
    ensures MonthIndex(20742) == 2026 * 12 + 9
  {
    var doe := 20742 + 719468 - 5 * 146097;
    assert (20742 + 719468) / 146097 == 5 && doe == 9725;
    assert doe / 1460 == 6 && doe / 36524 == 0 && doe / 146096 == 0;
    assert (doe - 6) / 365 == 26 && doe - 9496 == 229 && (5 * 229 + 2) / 153 == 7;
  }

  function YearOf(mi: int): int { mi / 12 }
  function MonthOf(mi: int): (m: int) ensures 1 <= m <= 12 { mi % 12 + 1 }

  /** `n` printed with at least `width` digits, zero-padded on the left. */
  function Field(n: nat, width: nat): string
  {
    PadLeft(NatStr(n), width)
  }

  /** The first day of month `mi` formatted as "%Y-%m-%d". */
  function MonthLabel(mi: int): string
  {
    var y := YearOf(mi);
    (if y >= 0 then Field(y, 4) else IntStr(y)) + "-" + Field(MonthOf(mi), 2) + "-01"
  }

  /** Reads a "YYYY-MM-01" label back into a month index. */
  function ParseMonthLabel(s: string): Option<int>
  {
    if |s| == 10 && s[4] == '-' && s[7] == '-' && s[8..] == "01"
       && AllDigits(s[..4]) && AllDigits(s[5..7])
    then
      var year := ParseNat(s[..4]);
      var month := ParseNat(s[5..7]);
      if 1 <= month <= 12 then Some(year * 12 + month - 1) else None
    else None
  }

  /** For every month of years 0000 to 9999 the label determines the month,
      so the labelled trend series keeps one distinct label per month. */
  lemma MonthLabelRoundTrip(mi: int)
    requires 0 <= mi < 12 * 10000
    ensures ParseMonthLabel(MonthLabel(mi)) == Some(mi)
  {
    var y, m := YearOf(mi), MonthOf(mi);
    Pow10Values();
    PaddedField(y, 4);
    PaddedField(m, 2);
    ParseFields(Field(y, 4), Field(m, 2));
  }

  lemma Pow10Values()
    ensures Pow10(2) == 100 && Pow10(4) == 10000
  {
    assert Pow10(1) == 10;
    assert Pow10(3) == 1000;
  }

  /** Parsing a label assembled from a four-digit and a two-digit field. */
  lemma ParseFields(ys: string, ms: string)
    requires |ys| == 4 && |ms| == 2 && AllDigits(ys) && AllDigits(ms)
    ensures ParseMonthLabel(ys + "-" + ms + "-01")
      == if 1 <= ParseNat(ms) <= 12 then Some(ParseNat(ys) * 12 + ParseNat(ms) - 1) else None
  {
    var s := ys + "-" + ms + "-01";
    LabelParts(ys, ms);
    assert AllDigits(s[..4]) && AllDigits(s[5..7]);
    assert ParseNat(s[..4]) == ParseNat(ys) && ParseNat(s[5..7]) == ParseNat(ms);
  }

  lemma LabelParts(ys: string, ms: string)
    requires |ys| == 4 && |ms| == 2
    ensures var s := ys + "-" + ms + "-01";
      |s| == 10 && s[4] == '-' && s[7] == '-' && s[8..] == "01" && s[..4] == ys && s[5..7] == ms
  {
    var s := ys + "-" + ms + "-01";
    assert s[..4] == ys;
    assert s[5..7] == ms;
    assert s[8..] == "01";
  }

  /** A number below 10^width, zero-padded to `width`, takes exactly
      `width` digits and reads back as itself. */
  lemma PaddedField(n: nat, width: nat)
    requires 1 <= width && n < Pow10(width)
    ensures |Field(n, width)| == width
    ensures AllDigits(Field(n, width))
    ensures ParseNat(Field(n, width)) == n
  {
    NatStrLength(n, width);
    ParsePadded(n, width);
  }

  lemma MonthLabelsDistinct(a: int, b: int)
    requires 0 <= a < 12 * 10000 && 0 <= b < 12 * 10000 && a != b
    ensures MonthLabel(a) != MonthLabel(b)
  {
    MonthLabelRoundTrip(a);
    MonthLabelRoundTrip(b);
  }
}
