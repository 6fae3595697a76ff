/** The calendar and the text form of time stamps, against fixed points. */
module TimestampFormat {
  import opened Common
  import opened Timestamps

  lemma FourthStep(n: nat)
    ensures (n + 4) / 4 == (n + 3) / 4 + if n % 4 == 0 then 1 else 0
  {
  }

  lemma HundredthStep(n: nat)
    ensures (n + 100) / 100 == (n + 99) / 100 + if n % 100 == 0 then 1 else 0
  {
  }

  lemma FourHundredthStep(n: nat)
    ensures (n + 400) / 400 == (n + 399) / 400 + if n % 400 == 0 then 1 else 0
  {
  }

  lemma LeapIs(y: nat)
    ensures (if Leap(y) then 1 else 0)
         == (if y % 4 == 0 then 1 else 0) - (if y % 100 == 0 then 1 else 0) + (if y % 400 == 0 then 1 else 0)
  {
    assert y % 400 == 0 ==> y % 100 == 0;
    assert y % 100 == 0 ==> y % 4 == 0;
  }

  /** Every fourth year is a leap year, but of the full centuries only every fourth. */
  lemma {:induction false} DaysOfYears(y: nat)
    ensures DaysBeforeYear(y) == 365 * y + (y + 3) / 4 - (y + 99) / 100 + (y + 399) / 400
  {
    if y > 0 {
      DaysOfYears(y - 1);
      FourthStep(y - 1);
      HundredthStep(y - 1);
      FourHundredthStep(y - 1);
      LeapIs(y - 1);
    }
  }

  lemma DaysOfMonths(leap: bool)
    ensures DaysBeforeMonth(1, leap) == 0 && DaysBeforeMonth(2, leap) == 31
    ensures DaysBeforeMonth(3, leap) == 59 + if leap then 1 else 0
    ensures DaysBeforeMonth(13, leap) == 365 + if leap then 1 else 0
  {
    YearLength(leap);
  }

  function EpochCivil(): Civil {
    Civil(1970, 1, 1, 8, 0, 0, 0)
  }

  lemma DaysOfYear(y: nat, year: nat, days: nat)
    requires y == year && days == 365 * year + (year + 3) / 4 - (year + 99) / 100 + (year + 399) / 400
    ensures DaysBeforeYear(y) == days
  {
    DaysOfYears(y);
  }

  lemma EpochInstant(c: Civil)
    requires c == EpochCivil()
    ensures Valid(c) && InstantOf(c) == 719528 * 86400 * SECOND
  {
    DaysOfYear(c.year, 1970, 719528);
  }

  lemma EpochInRange(last: nat)
    requires last == 10000
    ensures InRange(719528 * 86400 * SECOND)
  {
    DaysOfYear(last, 10000, 3652425);
  }

  lemma EpochRendered()
    ensures Render(EpochCivil()) == "1970-01-01T08:00:00+08:00"
  {
    TwoDigits(1);
    TwoDigits(8);
    TwoDigits(0);
    TwoDigits(19);
    PadDigit(19, 7, 2);
    PadDigit(197, 0, 3);
  }

  /** Midnight UTC of 1 January 1970, day 719528, is eight in the morning at +08:00. */
  lemma EpochText()
    ensures var epoch := 719528 * 86400 * SECOND;
            InRange(epoch) && Stamp(epoch) == "1970-01-01T08:00:00+08:00"
  {
    EpochInstant(EpochCivil());
    EpochInRange(10000);
    EpochRendered();
    RenderDecidesInstants(EpochCivil(), CivilOf(719528 * 86400 * SECOND));
  }

  lemma TwoDigits(n: nat)
    requires n < 100
    ensures Pad(n, 2) == [Digit(n / 10), Digit(n % 10)]
  {
    assert Pad(n / 10, 1) == "" + [Digit(n / 10)];
  }

  /** Whole milliseconds are shown with three digits. */
  lemma MillisecondText(ms: nat)
    requires 0 < ms < 1000
    ensures Fraction(0) == "" && Fraction(ms * 1_000_000) == "." + Pad(ms, 3)
  {
  }

  /** Other whole microseconds with six, and all other times with nine. */
  lemma FinerText(ns: nat)
    requires 0 < ns && ns % 1_000_000 != 0
    ensures Fraction(ns) == "." + if ns % 1_000 == 0 then Pad(ns / 1_000, 6) else Pad(ns, 9)
  {
  }
}
