/** Instants of the proleptic Gregorian calendar and their UTC text, whose string order is the order of time. */
module UtcText {
  // A moment in UTC with whole seconds.
  datatype Moment = Moment(year: int, month: int, day: int, hour: int, minute: int, second: int)
  {
    predicate Valid() {
      && 1 <= year && 1 <= month <= 12 && 1 <= day <= DaysInMonth(year, month)
      && 0 <= hour < 24 && 0 <= minute < 60 && 0 <= second < 60
    }

    // The years whose text has four digits.
    predicate Printable() { Valid() && 1000 <= year <= 9999 }
  }

  predicate IsLeap(year: int) {
    year % 4 == 0 && (year % 100 != 0 || year % 400 == 0)
  }

  function DaysInMonth(year: int, month: int): (days: int)
    ensures 28 <= days <= 31
  {
    if month == 2 then if IsLeap(year) then 29 else 28
    else if month == 4 || month == 6 || month == 9 || month == 11 then 30
    else 31
  }

  function DaysBeforeYear(year: int): int
    requires year >= 1
  {
    365 * (year - 1) + (year - 1) / 4 - (year - 1) / 100 + (year - 1) / 400
  }

  function DaysBeforeMonth(year: int, month: int): (days: int)
    requires 1 <= month <= 13
    ensures 0 <= days <= 31 * (month - 1)
  {
    if month == 1 then 0 else DaysBeforeMonth(year, month - 1) + DaysInMonth(year, month - 1)
  }

  // The number of the day, counting from the first of January of year 1.
  function Ordinal(m: Moment): int
    requires m.Valid()
  {
    DaysBeforeYear(m.year) + DaysBeforeMonth(m.year, m.month) + m.day
  }

  const DAY := 86400

  function SecondOfDay(m: Moment): int {
    3600 * m.hour + 60 * m.minute + m.second
  }

  // The instant itself, in seconds.
  function Seconds(m: Moment): int
    requires m.Valid()
  {
    DAY * Ordinal(m) + SecondOfDay(m)
  }

  // ---- The calendar counts every day once ----

  lemma FourthYear(year: int)
    ensures year / 4 == (year - 1) / 4 + if year % 4 == 0 then 1 else 0
  {
  }

  lemma HundredthYear(year: int)
    ensures year / 100 == (year - 1) / 100 + if year % 100 == 0 then 1 else 0
    ensures year % 100 == 0 ==> year % 4 == 0
  {
    assert year == 100 * (year / 100) + year % 100;
    assert 100 * (year / 100) == 4 * (25 * (year / 100));
  }

  lemma FourHundredthYear(year: int)
    ensures year / 400 == (year - 1) / 400 + if year % 400 == 0 then 1 else 0
    ensures year % 400 == 0 ==> year % 100 == 0
  {
    assert year == 400 * (year / 400) + year % 400;
    assert 400 * (year / 400) == 100 * (4 * (year / 400));
  }

  lemma YearLength(year: int)
    requires year >= 1
    ensures DaysBeforeYear(year + 1) == DaysBeforeYear(year) + if IsLeap(year) then 366 else 365
  {
    FourthYear(year);
    HundredthYear(year);
    FourHundredthYear(year);
  }

  lemma MonthsFillYear(year: int)
    ensures DaysBeforeMonth(year, 13) == if IsLeap(year) then 366 else 365
  {
    assert DaysBeforeMonth(year, 2) == 31;
    assert DaysBeforeMonth(year, 3) == 31 + DaysInMonth(year, 2);
    assert DaysBeforeMonth(year, 4) == 62 + DaysInMonth(year, 2);
    assert DaysBeforeMonth(year, 5) == 92 + DaysInMonth(year, 2);
    assert DaysBeforeMonth(year, 6) == 123 + DaysInMonth(year, 2);
    assert DaysBeforeMonth(year, 7) == 153 + DaysInMonth(year, 2);
    assert DaysBeforeMonth(year, 8) == 184 + DaysInMonth(year, 2);
    assert DaysBeforeMonth(year, 9) == 215 + DaysInMonth(year, 2);
    assert DaysBeforeMonth(year, 10) == 245 + DaysInMonth(year, 2);
    assert DaysBeforeMonth(year, 11) == 276 + DaysInMonth(year, 2);
    assert DaysBeforeMonth(year, 12) == 306 + DaysInMonth(year, 2);
  }

  lemma {:induction false} MonthsGrow(year: int, m: int, n: int)
    requires 1 <= m < n <= 13
    ensures DaysBeforeMonth(year, m) + DaysInMonth(year, m) <= DaysBeforeMonth(year, n)
    decreases n
  {
    if m < n - 1 {
      MonthsGrow(year, m, n - 1);
    }
  }

  lemma {:induction false} YearsGrow(y: int, z: int)
    requires 1 <= y < z
    ensures DaysBeforeYear(y) + 365 <= DaysBeforeYear(y + 1) <= DaysBeforeYear(z)
    decreases z
  {
    YearLength(y);
    if y < z - 1 {
      YearLength(z - 1);
      YearsGrow(y, z - 1);
    }
  }

  // The calendar's order on dates.
  predicate EarlierDate(a: Moment, b: Moment) {
    a.year < b.year || (a.year == b.year && (a.month < b.month || (a.month == b.month && a.day < b.day)))
  }

  predicate SameDate(a: Moment, b: Moment) {
    a.year == b.year && a.month == b.month && a.day == b.day
  }

  predicate Earlier(a: Moment, b: Moment) {
    EarlierDate(a, b) || (SameDate(a, b) && SecondOfDay(a) < SecondOfDay(b))
  }

  lemma EarlierDateHasSmallerOrdinal(a: Moment, b: Moment)
    requires a.Valid() && b.Valid() && EarlierDate(a, b)
    ensures Ordinal(a) < Ordinal(b)
  {
    if a.year < b.year {
      MonthsFillYear(a.year);
      if a.month < 13 {
        MonthsGrow(a.year, a.month, 13);
      }
      YearLength(a.year);
      YearsGrow(a.year, b.year);
    } else if a.month < b.month {
      MonthsGrow(a.year, a.month, b.month);
    }
  }

  // The order of instants is the order of their fields, and no two moments are the same instant.
  lemma SecondsFollowFields(a: Moment, b: Moment)
    requires a.Valid() && b.Valid()
    ensures Seconds(a) < Seconds(b) <==> Earlier(a, b)
    ensures Seconds(a) == Seconds(b) <==> a == b
  {
    if EarlierDate(a, b) {
      EarlierDateHasSmallerOrdinal(a, b);
    } else if EarlierDate(b, a) {
      EarlierDateHasSmallerOrdinal(b, a);
    }
  }

  // ---- Adding time ----

  function NextDay(m: Moment): Moment {
    if m.day < DaysInMonth(m.year, m.month) then m.(day := m.day + 1)
    else if m.month < 12 then m.(month := m.month + 1, day := 1)
    else m.(year := m.year + 1, month := 1, day := 1)
  }

  lemma NextDayIsNext(m: Moment)
    requires m.Valid()
    ensures NextDay(m).Valid() && Ordinal(NextDay(m)) == Ordinal(m) + 1 && SecondOfDay(NextDay(m)) == SecondOfDay(m)
  {
    if m.day == DaysInMonth(m.year, m.month) && m.month == 12 {
      MonthsFillYear(m.year);
      YearLength(m.year);
    }
  }

  function AddDays(m: Moment, days: nat): Moment {
    if days == 0 then m else NextDay(AddDays(m, days - 1))
  }

  // A moment plus a duration of whole seconds.
  function Plus(m: Moment, seconds: nat): Moment
    requires m.Valid()
  {
    var total := SecondOfDay(m) + seconds;
    AddDays(m, total / DAY).(hour := total % DAY / 3600, minute := total % DAY % 3600 / 60, second := total % DAY % 60)
  }

  lemma {:induction false} AddDaysAdds(m: Moment, days: nat)
    requires m.Valid()
    ensures AddDays(m, days).Valid() && Ordinal(AddDays(m, days)) == Ordinal(m) + days
  {
    if days > 0 {
      AddDaysAdds(m, days - 1);
      NextDayIsNext(AddDays(m, days - 1));
    }
  }

  lemma ClockOfSecond(rest: int)
    requires 0 <= rest < DAY
    ensures 0 <= rest / 3600 < 24 && 0 <= rest % 3600 / 60 < 60 && 0 <= rest % 60 < 60
    ensures 3600 * (rest / 3600) + 60 * (rest % 3600 / 60) + rest % 60 == rest
  {
    assert rest % 60 == rest % 3600 % 60;
  }

  lemma PlusAdds(m: Moment, seconds: nat)
    requires m.Valid()
    ensures Plus(m, seconds).Valid() && Seconds(Plus(m, seconds)) == Seconds(m) + seconds
  {
    var total := SecondOfDay(m) + seconds;
    AddDaysAdds(m, total / DAY);
    ClockOfSecond(total % DAY);
    assert Ordinal(Plus(m, seconds)) == Ordinal(AddDays(m, total / DAY));
    assert SecondOfDay(Plus(m, seconds)) == total % DAY;
  }

  // ---- Text ----

  function Digit(n: int): char
    requires 0 <= n < 10
  {
    '0' + n as char
  }

  function Two(n: int): string
    requires 0 <= n < 100
  {
    [Digit(n / 10), Digit(n % 10)]
  }

  function Four(n: int): string
    requires 0 <= n < 10000
  {
    Two(n / 100) + Two(n % 100)
  }

  // to_utc_z, for years with four digits
  function ToUtcZ(m: Moment): (text: string)
    requires m.Printable()
    ensures |text| == 20
  {
    Four(m.year) + "-" + Two(m.month) + "-" + Two(m.day) + "T" + Two(m.hour) + ":" + Two(m.minute) + ":" + Two(m.second) + "Z"
  }

  // The order Python gives strings.
  predicate Before(a: string, b: string) {
    if a == "" then b != ""
    else if b == "" then false
    else a[0] < b[0] || (a[0] == b[0] && Before(a[1..], b[1..]))
  }

  lemma {:induction false} BeforeIsOrder(a: string, b: string)
    ensures !(Before(a, b) && Before(b, a)) && !Before(a, a)
    ensures a == b || Before(a, b) || Before(b, a)
  {
    if a != "" {
      BeforeIsOrder(a[1..], a[1..]);
      if b != "" {
        BeforeIsOrder(a[1..], b[1..]);
        assert a == [a[0]] + a[1..] && b == [b[0]] + b[1..];
      }
    }
  }

  lemma {:induction false} BeforeOfJoined(a: string, b: string, c: string, d: string)
    requires |a| == |c|
    ensures Before(a + b, c + d) <==> Before(a, c) || (a == c && Before(b, d))
  {
    if a == "" {
      assert a + b == b && c + d == d;
    } else {
      BeforeOfJoined(a[1..], b, c[1..], d);
      assert (a + b)[1..] == a[1..] + b && (c + d)[1..] == c[1..] + d;
      assert a == [a[0]] + a[1..] && c == [c[0]] + c[1..];
    }
  }

  lemma PairsOfDigitsCompare(a: char, b: char, c: char, d: char)
    ensures Before([a, b], [c, d]) <==> a < c || (a == c && b < d)
  {
    assert [a, b][1..] == [b] && [c, d][1..] == [d];
    assert [b][1..] == "" && [d][1..] == "";
    assert Before([b], [d]) <==> b < d;
  }

  lemma TwoFollowsNumbers(m: int, n: int)
    requires 0 <= m < 100 && 0 <= n < 100
    ensures Before(Two(m), Two(n)) <==> m < n
    ensures Two(m) == Two(n) <==> m == n
  {
    PairsOfDigitsCompare(Digit(m / 10), Digit(m % 10), Digit(n / 10), Digit(n % 10));
    assert Two(m)[0] == Digit(m / 10) && Two(m)[1] == Digit(m % 10);
    assert Two(n)[0] == Digit(n / 10) && Two(n)[1] == Digit(n % 10);
  }

  lemma FourFollowsNumbers(m: int, n: int)
    requires 0 <= m < 10000 && 0 <= n < 10000
    ensures Before(Four(m), Four(n)) <==> m < n
    ensures Four(m) == Four(n) <==> m == n
  {
    TwoFollowsNumbers(m / 100, n / 100);
    TwoFollowsNumbers(m % 100, n % 100);
    BeforeOfJoined(Two(m / 100), Two(m % 100), Two(n / 100), Two(n % 100));
    assert Four(m)[..2] == Two(m / 100) && Four(m)[2..] == Two(m % 100);
    assert Four(n)[..2] == Two(n / 100) && Four(n)[2..] == Two(n % 100);
  }

  // A two-digit field with a mark behind it, and the rest of the text.
  lemma FieldDecides(m: int, n: int, mark: string, rest: string, other: string)
    requires 0 <= m < 100 && 0 <= n < 100
    ensures Before(Two(m) + mark + rest, Two(n) + mark + other) <==> m < n || (m == n && Before(rest, other))
    ensures Two(m) + mark + rest == Two(n) + mark + other <==> m == n && rest == other
  {
    TwoFollowsNumbers(m, n);
    BeforeIsOrder(mark, mark);
    BeforeOfJoined(mark, rest, mark, other);
    BeforeOfJoined(Two(m), mark + rest, Two(n), mark + other);
    assert Two(m) + mark + rest == Two(m) + (mark + rest) && Two(n) + mark + other == Two(n) + (mark + other);
    if Two(m) + mark + rest == Two(n) + mark + other {
      assert (Two(m) + mark + rest)[..2] == Two(m) && (Two(n) + mark + other)[..2] == Two(n);
      assert (Two(m) + mark + rest)[2 + |mark|..] == rest && (Two(n) + mark + other)[2 + |mark|..] == other;
    }
  }

  function TimeText(m: Moment): string
    requires m.Valid()
  {
    Two(m.hour) + ":" + (Two(m.minute) + ":" + (Two(m.second) + "Z" + ""))
  }

  function DateText(m: Moment, rest: string): string
    requires m.Printable()
  {
    Four(m.year) + ("-" + (Two(m.month) + "-" + (Two(m.day) + "T" + rest)))
  }

  lemma TextIsNested(m: Moment)
    requires m.Printable()
    ensures ToUtcZ(m) == DateText(m, TimeText(m))
  {
  }

  lemma TimeTextDecides(a: Moment, b: Moment)
    requires a.Valid() && b.Valid()
    ensures Before(TimeText(a), TimeText(b)) <==> SecondOfDay(a) < SecondOfDay(b)
    ensures TimeText(a) == TimeText(b) <==> SecondOfDay(a) == SecondOfDay(b)
  {
    BeforeIsOrder("", "");
    FieldDecides(a.second, b.second, "Z", "", "");
    FieldDecides(a.minute, b.minute, ":", Two(a.second) + "Z" + "", Two(b.second) + "Z" + "");
    FieldDecides(a.hour, b.hour, ":", Two(a.minute) + ":" + (Two(a.second) + "Z" + ""), Two(b.minute) + ":" + (Two(b.second) + "Z" + ""));
  }

  lemma DateTextDecides(a: Moment, b: Moment, rest: string, other: string)
    requires a.Printable() && b.Printable()
    ensures Before(DateText(a, rest), DateText(b, other)) <==> EarlierDate(a, b) || (SameDate(a, b) && Before(rest, other))
    ensures DateText(a, rest) == DateText(b, other) <==> SameDate(a, b) && rest == other
  {
    var day, otherDay := Two(a.day) + "T" + rest, Two(b.day) + "T" + other;
    var month, otherMonth := Two(a.month) + "-" + day, Two(b.month) + "-" + otherDay;
    FieldDecides(a.day, b.day, "T", rest, other);
    FieldDecides(a.month, b.month, "-", day, otherDay);
    BeforeIsOrder("-", "-");
    BeforeOfJoined("-", month, "-", otherMonth);
    FourFollowsNumbers(a.year, b.year);
    BeforeOfJoined(Four(a.year), "-" + month, Four(b.year), "-" + otherMonth);
    if DateText(a, rest) == DateText(b, other) {
      assert DateText(a, rest)[..4] == Four(a.year) && DateText(b, other)[..4] == Four(b.year);
      assert DateText(a, rest)[5..] == month && DateText(b, other)[5..] == otherMonth;
    }
  }

  // Comparing the texts compares the instants.
  lemma TextOrderIsTimeOrder(a: Moment, b: Moment)
    requires a.Printable() && b.Printable()
    ensures Before(ToUtcZ(a), ToUtcZ(b)) <==> Seconds(a) < Seconds(b)
    ensures ToUtcZ(a) == ToUtcZ(b) <==> a == b
  {
    TextIsNested(a);
    TextIsNested(b);
    TimeTextDecides(a, b);
    DateTextDecides(a, b, TimeText(a), TimeText(b));
    SecondsFollowFields(a, b);
  }
}
