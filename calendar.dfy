/** Calendar dates and clock readings. The wall clock is never read inside the
    model: every operation that calls `pd.Timestamp.now()` in the source takes the
    reading as a parameter instead. */
module Calendar {
  import opened Text

  datatype Date = Date(year: nat, month: nat, day: nat)

  datatype TimeOfDay = TimeOfDay(hour: nat, minute: nat)

  /** One reading of the local wall clock. */
  datatype Timestamp = Timestamp(date: Date, time: TimeOfDay)

  predicate IsLeapYear(y: nat)
  {
    y % 4 == 0 && (y % 100 != 0 || y % 400 == 0)
  }

  function DaysInMonth(y: nat, m: nat): nat
  {
    if m == 2 then (if IsLeapYear(y) then 29 else 28)
    else if m == 4 || m == 6 || m == 9 || m == 11 then 30
    else 31
  }

  /** The dates Python's `datetime.date` can hold (years 1 to 9999). */
  predicate ValidDate(d: Date)
  {
    && 1 <= d.year <= 9999
    && 1 <= d.month <= 12
    && 1 <= d.day <= DaysInMonth(d.year, d.month)
  }

  /** Strictly earlier in the day. */
  predicate Before(a: TimeOfDay, b: TimeOfDay)
  {
    a.hour < b.hour || (a.hour == b.hour && a.minute < b.minute)
  }

  /** `str(date)`: the ISO 8601 text `YYYY-MM-DD`, built from digits and dashes only. */
  function IsoDate(d: Date): (s: string)
    ensures forall k :: 0 <= k < |s| ==> IsDigit(s[k]) || s[k] == '-'
  {
    Padded(d.year, 4) + "-" + Padded(d.month, 2) + "-" + Padded(d.day, 2)
  }

  /** Different valid dates have different ISO texts, so a name that embeds the
      date changes from one day to the next. */
  lemma IsoDateInjective(d1: Date, d2: Date)
    requires ValidDate(d1) && ValidDate(d2)
    requires IsoDate(d1) == IsoDate(d2)
    ensures d1 == d2
  {
    assert Pow10(2) == 100 && Pow10(4) == 10000;
    PaddedSpec(d1.year, 4);
    PaddedSpec(d2.year, 4);
    PaddedSpec(d1.month, 2);
    PaddedSpec(d2.month, 2);
    PaddedSpec(d1.day, 2);
    PaddedSpec(d2.day, 2);
    Fields(Padded(d1.year, 4), Padded(d1.month, 2), Padded(d1.day, 2));
    Fields(Padded(d2.year, 4), Padded(d2.month, 2), Padded(d2.day, 2));
  }

  /** Where the three fields sit in a `YYYY-MM-DD` text. */
  lemma Fields(y: string, m: string, d: string)
    requires |y| == 4 && |m| == 2 && |d| == 2
    ensures var s := y + "-" + m + "-" + d; s[..4] == y && s[5..7] == m && s[8..] == d
  {
    var s := y + "-" + m + "-" + d;
    assert s == y + ("-" + m + "-" + d);
    assert s[5..] == m + "-" + d;
    assert s[5..][..2] == m;
  }
}
