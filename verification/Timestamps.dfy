/** RFC 3339 timestamps at offset +08:00, compared as strings.
    The stores write `to_rfc3339()` text and compare it byte by byte. The fraction has 0, 3, 6 or 9 digits,
    so equal-length string ordering does not apply; the order nevertheless is the order of time. */
module Timestamps {
  import opened Common

  /** Byte order of two ASCII strings: SQLite's BINARY collation and Rust's `Ord` for `String`. */
  predicate Less(a: string, b: string) {
    b != "" && (a == "" || a[0] < b[0] || (a[0] == b[0] && Less(a[1..], b[1..])))
  }

  lemma {:induction false} LessIsTotalOrder(a: string, b: string, c: string)
    ensures !Less(a, a)
    ensures !(Less(a, b) && Less(b, a))
    ensures a == b || Less(a, b) || Less(b, a)
    ensures Less(a, b) && Less(b, c) ==> Less(a, c)
  {
    if a != "" {
      LessIsTotalOrder(a[1..], if b == "" then "" else b[1..], if c == "" then "" else c[1..]);
      if b != "" {
        assert a == [a[0]] + a[1..] && b == [b[0]] + b[1..];
      }
    }
  }

  const ZONE := "+08:00"
  const OFFSET_SECONDS := 8 * 3600
  const SECOND: int := 1_000_000_000

  // ----- rendering -----

  function Pow10(w: nat): nat {
    if w == 0 then 1 else 10 * Pow10(w - 1)
  }

  function Digit(d: nat): char
    requires d < 10
  {
    ('0' as int + d) as char
  }

  /** `{:0w}`: the last w decimal digits. */
  function Pad(n: nat, w: nat): (s: string)
    ensures |s| == w
  {
    if w == 0 then "" else Pad(n / 10, w - 1) + [Digit(n % 10)]
  }

  /** The shortest of 0, 3, 6 and 9 fraction digits that shows the nanoseconds exactly. */
  function Fraction(ns: nat): string {
    if ns == 0 then ""
    else if ns % 1_000_000 == 0 then "." + Pad(ns / 1_000_000, 3)
    else if ns % 1_000 == 0 then "." + Pad(ns / 1_000, 6)
    else "." + Pad(ns, 9)
  }

  datatype Civil = Civil(year: nat, month: nat, day: nat, hour: nat, minute: nat, second: nat, nano: nat)

  function Render(c: Civil): string {
    Pad(c.year, 4) + ("-" + (Pad(c.month, 2) + ("-" + (Pad(c.day, 2) + ("T" + (Pad(c.hour, 2) + (":" +
    (Pad(c.minute, 2) + (":" + (Pad(c.second, 2) + (Fraction(c.nano) + ZONE)))))))))))
  }

  // ----- the calendar -----

  predicate Leap(y: nat) {
    y % 4 == 0 && (y % 100 != 0 || y % 400 == 0)
  }

  function MonthLength(m: nat, leap: bool): nat {
    if m == 2 then (if leap then 29 else 28)
    else if m == 4 || m == 6 || m == 9 || m == 11 then 30
    else 31
  }

  function DaysBeforeYear(y: nat): nat {
    if y == 0 then 0 else DaysBeforeYear(y - 1) + if Leap(y - 1) then 366 else 365
  }

  function DaysBeforeMonth(m: nat, leap: bool): nat {
    if m <= 1 then 0 else DaysBeforeMonth(m - 1, leap) + MonthLength(m - 1, leap)
  }

  predicate Valid(c: Civil) {
    && c.year <= 9999 && 1 <= c.month <= 12 && 1 <= c.day <= MonthLength(c.month, Leap(c.year))
    && c.hour < 24 && c.minute < 60 && c.second < 60 && c.nano < SECOND
  }

  function DayNumber(c: Civil): int {
    DaysBeforeYear(c.year) + DaysBeforeMonth(c.month, Leap(c.year)) + c.day - 1
  }

  /** Nanoseconds of UTC since the local midnight that starts year 0, shifted by the zone offset. */
  function InstantOf(c: Civil): int {
    (((DayNumber(c) * 24 + c.hour) * 60 + c.minute) * 60 + c.second - OFFSET_SECONDS) * SECOND + c.nano
  }

  // ----- string order is field order -----

  lemma {:induction false} LessAppend(a: string, b: string, x: string, y: string)
    requires |a| == |b|
    ensures Less(a + x, b + y) <==> Less(a, b) || (a == b && Less(x, y))
    ensures !(Less(a, b) && a == b)
  {
    if a == "" {
      assert a + x == x && b + y == y;
    } else {
      LessAppend(a[1..], b[1..], x, y);
      assert (a + x)[1..] == a[1..] + x && (b + y)[1..] == b[1..] + y;
      assert a == b <==> a[0] == b[0] && a[1..] == b[1..];
    }
  }

  lemma {:induction false} PadOrder(m: nat, n: nat, w: nat)
    requires m < Pow10(w) && n < Pow10(w)
    ensures Less(Pad(m, w), Pad(n, w)) <==> m < n
    ensures Pad(m, w) == Pad(n, w) <==> m == n
  {
    if w > 0 {
      PadOrder(m / 10, n / 10, w - 1);
      LessAppend(Pad(m / 10, w - 1), Pad(n / 10, w - 1), [Digit(m % 10)], [Digit(n % 10)]);
      assert Pad(m, w)[..w - 1] == Pad(m / 10, w - 1) && Pad(n, w)[..w - 1] == Pad(n / 10, w - 1);
      assert Pad(m, w)[w - 1] == Digit(m % 10) && Pad(n, w)[w - 1] == Digit(n % 10);
      assert Less([], []) == false;
    }
  }

  /** One fixed-width field in front of a rest: the field decides, then the rest. */
  lemma FieldOrder(m: nat, n: nat, w: nat, x: string, y: string)
    requires m < Pow10(w) && n < Pow10(w)
    ensures Less(Pad(m, w) + x, Pad(n, w) + y) <==> m < n || (m == n && Less(x, y))
  {
    PadOrder(m, n, w);
    LessAppend(Pad(m, w), Pad(n, w), x, y);
  }

  lemma MarkOrder(mark: char, x: string, y: string)
    ensures Less([mark] + x, [mark] + y) <==> Less(x, y)
  {
    LessAppend([mark], [mark], x, y);
    assert !Less([], []);
  }

  lemma PadDigit(a: nat, d: nat, w: nat)
    requires d < 10
    ensures Pad(a * 10 + d, w + 1) == Pad(a, w) + [Digit(d)]
  {
    assert (a * 10 + d) / 10 == a && (a * 10 + d) % 10 == d;
  }

  lemma PadSplit(a: nat, b: nat, w: nat)
    requires b < 1000
    ensures Pad(a * 1000 + b, w + 3) == Pad(a, w) + Pad(b, 3)
  {
    var x, y, z := b / 100, b / 10 % 10, b % 10;
    DigitsOf(b);
    ThreeDigits(a, x, y, z, w);
    PadThree(b, x, y, z);
  }

  lemma DigitsOf(b: nat)
    requires b < 1000
    ensures b / 100 < 10 && b / 10 % 10 < 10 && b % 10 < 10 && b == (b / 100 * 10 + b / 10 % 10) * 10 + b % 10
  {
  }

  lemma PadThree(b: nat, x: nat, y: nat, z: nat)
    requires x < 10 && y < 10 && z < 10 && b == (x * 10 + y) * 10 + z
    ensures Pad(b, 3) == [Digit(x), Digit(y), Digit(z)]
  {
    PadDigit(x * 10 + y, z, 2);
    PadDigit(x, y, 1);
    PadDigit(0, x, 0);
  }

  lemma ThreeDigits(a: nat, x: nat, y: nat, z: nat, w: nat)
    requires x < 10 && y < 10 && z < 10
    ensures Pad(a * 1000 + ((x * 10 + y) * 10 + z), w + 3) == Pad(a, w) + [Digit(x), Digit(y), Digit(z)]
  {
    var ax := a * 10 + x;
    var axy := ax * 10 + y;
    PadDigit(axy, z, w + 2);
    PadDigit(ax, y, w + 1);
    PadDigit(a, x, w);
    assert axy * 10 + z == a * 1000 + ((x * 10 + y) * 10 + z);
  }

  // ----- the fraction: three-digit groups with trailing zero groups cut off -----

  function Value(groups: seq<nat>): nat {
    if groups == [] then 0 else groups[0] * Weight(|groups| - 1) + Value(groups[1..])
  }

  function Weight(k: nat): nat {
    if k == 0 then 1 else 1000 * Weight(k - 1)
  }

  ghost predicate Groups(groups: seq<nat>) {
    forall i :: 0 <= i < |groups| ==> groups[i] < 1000
  }

  function Tail(groups: seq<nat>): string {
    if Value(groups) == 0 then ZONE else Pad(groups[0], 3) + Tail(groups[1..])
  }

  lemma {:induction false} ValueBound(groups: seq<nat>)
    requires Groups(groups)
    ensures Value(groups) < Weight(|groups|)
  {
    if groups != [] {
      ValueBound(groups[1..]);
      LeadingGroup(groups[0], 1000, Value(groups[1..]), 0, Weight(|groups| - 1));
    }
  }

  /** A text without further groups is the zone, which is below every digit. */
  lemma ZoneOrder(h: seq<nat>)
    requires Value(h) > 0
    ensures Less(ZONE, Tail(h)) && !Less(Tail(h), ZONE)
  {
    Hundreds(h[0]);
    assert Tail(h)[0] == Pad(h[0], 3)[0];
  }

  lemma SameZone()
    ensures !Less(ZONE, ZONE)
  {
    LessAppend(ZONE, ZONE, "", "");
    assert !Less("", "");
    assert ZONE + "" == ZONE;
  }

  lemma {:induction false} TailOrder(g: seq<nat>, h: seq<nat>)
    requires Groups(g) && Groups(h) && |g| == |h|
    ensures Less(Tail(g), Tail(h)) <==> Value(g) < Value(h)
  {
    if Value(g) == 0 && Value(h) == 0 {
      SameZone();
    } else if Value(g) == 0 {
      ZoneOrder(h);
    } else if Value(h) == 0 {
      ZoneOrder(g);
    } else {
      TailOrder(g[1..], h[1..]);
      FieldOrder(g[0], h[0], 3, Tail(g[1..]), Tail(h[1..]));
      ValueBound(g[1..]);
      ValueBound(h[1..]);
      LeadingGroup(g[0], h[0], Value(g[1..]), Value(h[1..]), Weight(|g| - 1));
    }
  }

  lemma Hundreds(n: nat)
    ensures Pad(n, 3)[0] == Digit(n / 10 / 10 % 10)
  {
    PadDigit(n / 10, n % 10, 2);
    PadDigit(n / 10 / 10, n / 10 % 10, 1);
  }

  lemma LeadingGroup(a: nat, b: nat, x: nat, y: nat, p: nat)
    requires x < p && y < p
    ensures a * p + x < b * p + y <==> a < b || (a == b && x < y)
  {
    if a < b {
      assert (a + 1) * p <= b * p;
    } else if b < a {
      assert (b + 1) * p <= a * p;
    }
  }

  function Split(ns: nat): seq<nat> {
    [ns / 1_000_000, ns / 1_000 % 1_000, ns % 1_000]
  }

  lemma SplitValue(ns: nat)
    ensures Value(Split(ns)) == ns
    ensures ns < SECOND ==> Groups(Split(ns))
  {
    var s := Split(ns);
    assert s[1..] == [ns / 1_000 % 1_000, ns % 1_000];
    assert s[1..][1..] == [ns % 1_000];
    assert Value([ns % 1_000]) == ns % 1_000;
    assert Weight(1) == 1000 && Weight(2) == 1000 * Weight(1);
    assert Value(s[1..]) == ns / 1_000 % 1_000 * 1000 + ns % 1_000;
  }

  lemma FractionDigits(a: nat, b: nat, c: nat, ns: nat)
    requires b < 1000 && c < 1000 && ns == (a * 1000 + b) * 1000 + c > 0
    ensures Fraction(ns) == "." +
      if b == 0 && c == 0 then Pad(a, 3) else if c == 0 then Pad(a * 1000 + b, 6) else Pad(ns, 9)
  {
    assert ns / 1_000 == a * 1000 + b && ns % 1_000 == c && ns / 1_000_000 == a && ns % 1_000_000 == b * 1000 + c;
  }

  lemma FractionGroups(a: nat, b: nat, c: nat, ns: nat)
    requires b < 1000 && c < 1000 && ns == (a * 1000 + b) * 1000 + c > 0
    ensures Fraction(ns) == "." +
      if b == 0 && c == 0 then Pad(a, 3)
      else if c == 0 then Pad(a, 3) + Pad(b, 3)
      else (Pad(a, 3) + Pad(b, 3)) + Pad(c, 3)
  {
    FractionDigits(a, b, c, ns);
    PadSplit(a, b, 3);
    PadSplit(a * 1000 + b, c, 6);
  }

  lemma Nested(mark: string, a: string, b: string, c: string, z: string)
    ensures (mark + a) + z == mark + (a + z)
    ensures (mark + (a + b)) + z == mark + (a + (b + z))
    ensures (mark + ((a + b) + c)) + z == mark + (a + (b + (c + z)))
  {
    Assoc(mark, a, z);
    Assoc(mark, a + b, z);
    Assoc(a, b, z);
    Assoc(mark, (a + b) + c, z);
    Assoc(a + b, c, z);
    Assoc(a, b, c + z);
  }

  /** The fraction in front of any text z, as its three-digit groups. */
  lemma GroupsOfFraction(a: nat, b: nat, c: nat, ns: nat, z: string)
    requires b < 1000 && c < 1000 && ns == (a * 1000 + b) * 1000 + c > 0
    ensures Fraction(ns) + z == "." + (Pad(a, 3) +
      if b == 0 && c == 0 then z else Pad(b, 3) + if c == 0 then z else Pad(c, 3) + z)
  {
    FractionGroups(a, b, c, ns);
    Nested(".", Pad(a, 3), Pad(b, 3), Pad(c, 3), z);
  }

  lemma TailOfSplit(ns: nat, a: nat, b: nat, c: nat)
    requires 0 < ns < SECOND && a == ns / 1_000_000 && b == ns / 1_000 % 1_000 && c == ns % 1_000
    ensures Tail(Split(ns)) == Pad(a, 3) +
      if b == 0 && c == 0 then ZONE else Pad(b, 3) + if c == 0 then ZONE else Pad(c, 3) + ZONE
  {
    SplitValue(ns);
    assert Split(ns)[1..] == [b, c];
    LastGroups(b, c);
  }

  lemma FractionIsTail(ns: nat)
    requires 0 < ns < SECOND
    ensures Fraction(ns) + ZONE == "." + Tail(Split(ns))
  {
    var a, b, c := ns / 1_000_000, ns / 1_000 % 1_000, ns % 1_000;
    GroupsOfFraction(a, b, c, ns, ZONE);
    TailOfSplit(ns, a, b, c);
  }

  lemma LastGroups(b: nat, c: nat)
    ensures Tail([b, c]) ==
      if b == 0 && c == 0 then ZONE
      else if c == 0 then Pad(b, 3) + ZONE
      else Pad(b, 3) + (Pad(c, 3) + ZONE)
  {
    assert [b, c][1..] == [c] && [c][1..] == [];
    assert Weight(1) == 1000 && Weight(0) == 1;
    assert Value([c]) == c && Value([b, c]) == b * 1000 + c;
    assert Tail([c]) == if c == 0 then ZONE else Pad(c, 3) + Tail([]);
  }

  lemma FractionOrder(m: nat, n: nat)
    requires m < SECOND && n < SECOND
    ensures Less(Fraction(m) + ZONE, Fraction(n) + ZONE) <==> m < n
  {
    assert "" + ZONE == ZONE;
    if m > 0 && n > 0 {
      FractionIsTail(m);
      FractionIsTail(n);
      MarkOrder('.', Tail(Split(m)), Tail(Split(n)));
      SplitValue(m);
      SplitValue(n);
      TailOrder(Split(m), Split(n));
    } else if m == 0 && n == 0 {
      TailOrder([], []);
    }
  }

  // ----- field order is instant order -----

  predicate Before(c: Civil, d: Civil) {
    || c.year < d.year
    || (c.year == d.year && (
    || c.month < d.month
    || (c.month == d.month && (
    || c.day < d.day
    || (c.day == d.day && (
    || c.hour < d.hour
    || (c.hour == d.hour && (
    || c.minute < d.minute
    || (c.minute == d.minute && (
    || c.second < d.second
    || (c.second == d.second && c.nano < d.nano)))))))))))
  }

  lemma RenderOrder(c: Civil, d: Civil)
    requires Valid(c) && Valid(d)
    ensures Less(Render(c), Render(d)) <==> Before(c, d)
  {
    var c7, d7 := Fraction(c.nano) + ZONE, Fraction(d.nano) + ZONE;
    var c6, d6 := Pad(c.second, 2) + c7, Pad(d.second, 2) + d7;
    var c5, d5 := Pad(c.minute, 2) + (":" + c6), Pad(d.minute, 2) + (":" + d6);
    var c4, d4 := Pad(c.hour, 2) + (":" + c5), Pad(d.hour, 2) + (":" + d5);
    var c3, d3 := Pad(c.day, 2) + ("T" + c4), Pad(d.day, 2) + ("T" + d4);
    var c2, d2 := Pad(c.month, 2) + ("-" + c3), Pad(d.month, 2) + ("-" + d3);
    assert Pow10(2) == 100 && Pow10(4) == 10000 by { assert Pow10(3) == 1000; }
    FractionOrder(c.nano, d.nano);
    FieldOrder(c.second, d.second, 2, c7, d7);
    FieldOrder(c.minute, d.minute, 2, ":" + c6, ":" + d6);
    MarkOrder(':', c6, d6);
    FieldOrder(c.hour, d.hour, 2, ":" + c5, ":" + d5);
    MarkOrder(':', c5, d5);
    FieldOrder(c.day, d.day, 2, "T" + c4, "T" + d4);
    MarkOrder('T', c4, d4);
    FieldOrder(c.month, d.month, 2, "-" + c3, "-" + d3);
    MarkOrder('-', c3, d3);
    FieldOrder(c.year, d.year, 4, "-" + c2, "-" + d2);
    MarkOrder('-', c2, d2);
  }

  lemma {:induction false} YearsMonotone(y: nat, z: nat)
    requires y <= z
    ensures DaysBeforeYear(y) <= DaysBeforeYear(z)
  {
    if y < z {
      YearsMonotone(y, z - 1);
    }
  }

  lemma {:induction false} MonthsMonotone(m: nat, n: nat, leap: bool)
    requires 1 <= m <= n
    ensures DaysBeforeMonth(m, leap) <= DaysBeforeMonth(n, leap)
  {
    if m < n {
      MonthsMonotone(m, n - 1, leap);
    }
  }

  lemma YearLength(leap: bool)
    ensures DaysBeforeMonth(13, leap) == if leap then 366 else 365
  {
    var feb := if leap then 29 else 28;
    assert DaysBeforeMonth(3, leap) == 31 + feb by { assert DaysBeforeMonth(2, leap) == 31; }
    assert DaysBeforeMonth(5, leap) == 92 + feb by { assert DaysBeforeMonth(4, leap) == 62 + feb; }
    assert DaysBeforeMonth(7, leap) == 153 + feb by { assert DaysBeforeMonth(6, leap) == 123 + feb; }
    assert DaysBeforeMonth(9, leap) == 215 + feb by { assert DaysBeforeMonth(8, leap) == 184 + feb; }
    assert DaysBeforeMonth(11, leap) == 276 + feb by { assert DaysBeforeMonth(10, leap) == 245 + feb; }
    assert DaysBeforeMonth(13, leap) == 337 + feb by { assert DaysBeforeMonth(12, leap) == 306 + feb; }
  }

  lemma DayOrder(c: Civil, d: Civil)
    requires Valid(c) && Valid(d)
    requires c.year < d.year || (c.year == d.year && (c.month < d.month || (c.month == d.month && c.day < d.day)))
    ensures DayNumber(c) < DayNumber(d)
  {
    if c.year < d.year {
      YearsMonotone(c.year + 1, d.year);
      MonthsMonotone(c.month + 1, 13, Leap(c.year));
      YearLength(Leap(c.year));
    } else if c.month < d.month {
      MonthsMonotone(c.month + 1, d.month, Leap(c.year));
    }
  }

  lemma InstantOrder(c: Civil, d: Civil)
    requires Valid(c) && Valid(d) && Before(c, d)
    ensures InstantOf(c) < InstantOf(d)
  {
    if c.year < d.year || c.month < d.month || c.day < d.day {
      if c.year < d.year || (c.year == d.year && (c.month < d.month || (c.month == d.month && c.day < d.day))) {
        DayOrder(c, d);
      }
    }
  }

  /** On valid civil times the text order decides the order of the instants, in both directions. */
  lemma RenderDecidesInstants(c: Civil, d: Civil)
    requires Valid(c) && Valid(d)
    ensures Less(Render(c), Render(d)) <==> InstantOf(c) < InstantOf(d)
    ensures Render(c) == Render(d) <==> InstantOf(c) == InstantOf(d)
  {
    RenderOrder(c, d);
    RenderOrder(d, c);
    RenderOrder(c, c);
    if Before(c, d) {
      InstantOrder(c, d);
    } else if Before(d, c) {
      InstantOrder(d, c);
    } else {
      assert c == d;
    }
  }

  // ----- every instant of the years 0000 to 9999 has a civil time -----

  predicate InRange(t: int) {
    0 <= t + OFFSET_SECONDS * SECOND < DaysBeforeYear(10000) * 86400 * SECOND
  }

  function YearOf(day: nat, y: nat): (r: nat)
    requires day < DaysBeforeYear(y + 1)
    ensures r <= y && DaysBeforeYear(r) <= day < DaysBeforeYear(r + 1)
  {
    if DaysBeforeYear(y) <= day then y else YearOf(day, y - 1)
  }

  function MonthOf(day: nat, m: nat, leap: bool): (r: nat)
    requires 1 <= m && day < DaysBeforeMonth(m + 1, leap)
    ensures 1 <= r <= m && DaysBeforeMonth(r, leap) <= day < DaysBeforeMonth(r + 1, leap)
  {
    if DaysBeforeMonth(m, leap) <= day then m else MonthOf(day, m - 1, leap)
  }

  /** Year, month and day of a day number. */
  function DateOf(day: nat): (d: (nat, nat, nat))
    requires day < DaysBeforeYear(10000)
    ensures d.0 <= 9999 && 1 <= d.1 <= 12 && 1 <= d.2 <= MonthLength(d.1, Leap(d.0))
    ensures DaysBeforeYear(d.0) + DaysBeforeMonth(d.1, Leap(d.0)) + d.2 - 1 == day
  {
    var y := YearOf(day, 9999);
    var rest := day - DaysBeforeYear(y);
    YearLength(Leap(y));
    var m := MonthOf(rest, 12, Leap(y));
    (y, m, rest - DaysBeforeMonth(m, Leap(y)) + 1)
  }

  /** Hour, minute and second of a second of the day. */
  function ClockOf(s: nat): (c: (nat, nat, nat))
    requires s < 86400
    ensures c.0 < 24 && c.1 < 60 && c.2 < 60 && (c.0 * 60 + c.1) * 60 + c.2 == s
  {
    (s / 3600, s / 60 % 60, s % 60)
  }

  lemma WholeDays(seconds: nat, days: nat)
    requires seconds < days * 86400
    ensures seconds / 86400 < days && seconds == seconds / 86400 * 86400 + seconds % 86400
  {
  }

  function CivilOf(t: int): (c: Civil)
    requires InRange(t)
    ensures Valid(c) && InstantOf(c) == t
  {
    var local := t + OFFSET_SECONDS * SECOND;
    var seconds := local / SECOND;
    WholeDays(seconds, DaysBeforeYear(10000));
    var (y, m, d) := DateOf(seconds / 86400);
    var (hour, minute, second) := ClockOf(seconds % 86400);
    Civil(y, m, d, hour, minute, second, local % SECOND)
  }

  function Stamp(t: int): string
    requires InRange(t)
  {
    Render(CivilOf(t))
  }

  /** The string tests `a < b` and `a <= b` of the stores decide the intended tests on time. */
  lemma StampOrder(a: int, b: int)
    requires InRange(a) && InRange(b)
    ensures Less(Stamp(a), Stamp(b)) <==> a < b
    ensures !Less(Stamp(b), Stamp(a)) <==> a <= b
    ensures Stamp(a) == Stamp(b) <==> a == b
  {
    RenderDecidesInstants(CivilOf(a), CivilOf(b));
    RenderDecidesInstants(CivilOf(b), CivilOf(a));
  }
}
