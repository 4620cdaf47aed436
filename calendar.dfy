/** Dates as the reports see them: a day is a whole number of days since
    1970-01-01 (UTC), and labels are written as `toISOString().slice(0, 10)`,
    as `${year}-${month padded to 2}` and as Mongo's `$dateToString` write
    them. */
module Calendar {
  import opened Strings

  const SecondsPerDay := 86400

  datatype CivilDate = CivilDate(year: int, month: int, day: int)

  /** The proleptic Gregorian date of a day number (the days-to-civil
      algorithm of H. Hinnant). */
  function CivilFromDays(days: int): CivilDate
  {
    var z := days + 719468;
    var era := z / 146097;
    var doe := z - era * 146097;
    var yoe := (doe - doe / 1460 + doe / 36524 - doe / 146096) / 365;
    var doy := doe - (365 * yoe + yoe / 4 - yoe / 100);
    var mp := (5 * doy + 2) / 153;
    var d := doy - (153 * mp + 2) / 5 + 1;
    var m := if mp < 10 then mp + 3 else mp - 9;
    var y := yoe + era * 400;
    CivilDate(if m <= 2 then y + 1 else y, m, d)
  }

  /** The day a timestamp (seconds) falls on, in UTC: the day whose
      midnight is the latest one not after the time, before 1970 too. */
  function DayOf(t: int): (d: int)
    ensures d * SecondsPerDay <= t < d * SecondsPerDay + SecondsPerDay
  {
    t / SecondsPerDay
  }

  /** A number of at least two digits, as `padStart(2, '0')` writes it. */
  function Pad2(n: int): (s: string)
    ensures |s| >= 2
  {
    PadStart(IntToString(n), 2, '0')
  }

  /** The year as `toISOString` writes it: four digits, zero padded, for
      years 0 to 9999, and a sign followed by at least six digits outside
      that range. */
  function IsoYear(y: int): (s: string)
    ensures 0 <= y <= 9999 ==> |s| == 4 && IsDigit(s[0])
    ensures y > 9999 || y < 0 ==> |s| >= 7
    ensures s[0] == '+' <==> y > 9999
    ensures s[0] == '-' <==> y < 0
  {
    if 0 <= y <= 9999 then
      NatToStringAtMost4(y);
      NatToStringDigits(y);
      PadStart(NatToString(y), 4, '0')
    else if y > 9999 then "+" + PadStart(NatToString(y), 6, '0')
    else "-" + PadStart(NatToString(-y), 6, '0')
  }

  /** `YYYY-MM-DD` of a day: `toISOString().slice(0, 10)`, and `%Y-%m-%d`. */
  function DayLabel(day: int): string
  {
    var c := CivilFromDays(day);
    IsoYear(c.year) + "-" + Pad2(c.month) + "-" + Pad2(c.day)
  }

  /** `${year}-${month}` with the month padded to two digits, as the
      month gap-filling writes it. */
  function MonthLabel(year: int, month: int): string
  {
    IntToString(year) + "-" + Pad2(month)
  }

  /** `%Y-%m` of a day, as the monthly grouping writes it. */
  function MonthKey(day: int): string
  {
    var c := CivilFromDays(day);
    IsoYear(c.year) + "-" + Pad2(c.month)
  }

  /** `%Y` of a day. */
  function YearKey(day: int): string
  {
    IsoYear(CivilFromDays(day).year)
  }

  /** The epoch is 1970-01-01. */
  lemma EpochIsNewYear1970()
    ensures CivilFromDays(0) == CivilDate(1970, 1, 1)
  {
    assert 719468 / 146097 == 4;
    assert 135080 / 1460 == 92 && 135080 / 36524 == 3 && 135080 / 146096 == 0;
    assert 134991 / 365 == 369 && 369 / 4 == 92 && 369 / 100 == 3;
    assert 1532 / 153 == 10 && 1532 / 5 == 306;
  }

  /** Day 19782 is the leap day 2024-02-29. */
  lemma LeapDay2024()
    ensures CivilFromDays(19782) == CivilDate(2024, 2, 29)
  {
    assert 739250 / 146097 == 5;
    assert 8765 / 1460 == 6 && 8765 / 36524 == 0 && 8765 / 146096 == 0;
    assert 8759 / 365 == 23 && 23 / 4 == 5 && 23 / 100 == 0;
    assert 1827 / 153 == 11 && 1685 / 5 == 337;
  }

  lemma {:induction false} NatToStringLength4(n: nat)
    requires 1000 <= n <= 9999
    ensures |NatToString(n)| == 4
  {
    var a := n / 10;
    var b := a / 10;
    var c := b / 10;
    assert 100 <= a <= 999 && 10 <= b <= 99 && 1 <= c <= 9;
    NatToStringLengthStep(n);
    NatToStringLengthStep(a);
    NatToStringLengthStep(b);
  }

  /** A number below 10000 has at most four digits. */
  lemma {:induction false} NatToStringAtMost4(n: nat)
    requires n <= 9999
    ensures |NatToString(n)| <= 4
  {
    if n >= 10 {
      NatToStringLengthStep(n);
      if n / 10 >= 10 {
        NatToStringLengthStep(n / 10);
        if n / 100 >= 10 {
          NatToStringLengthStep(n / 100);
        }
      }
    }
  }

  /** One more decimal digit. */
  lemma NatToStringLengthStep(n: nat)
    requires n >= 10
    ensures |NatToString(n)| == |NatToString(n / 10)| + 1
  {
  }

  /** For four-digit years the month the grouping writes is the label the
      gap-filling looks for, so a month present in the data is never filled
      again. */
  lemma MonthKeyIsMonthLabel(day: int)
    requires 1000 <= CivilFromDays(day).year <= 9999
    ensures MonthKey(day) == MonthLabel(CivilFromDays(day).year, CivilFromDays(day).month)
  {
    NatToStringLength4(CivilFromDays(day).year);
  }

}
