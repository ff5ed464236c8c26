/** UTC calendar periods: days, months and ISO 8601 weeks, as the counter keys name them and as the database
    ranges bound them. Instants are milliseconds since 1970-01-01. */
module Period {
  import opened Rounding
  import opened Text

  datatype Window = Day | Week | Month

  datatype PeriodInfo = PeriodInfo(periodId: string, startMs: int, endMs: int)

  const DAY_MS: nat := 86400000

  // ---- the proleptic Gregorian calendar, by day number ----

  predicate IsLeap(y: int) { y % 4 == 0 && (y % 100 != 0 || y % 400 == 0) }

  function YearLength(y: int): (n: nat)
    ensures 365 <= n <= 366
  {
    if IsLeap(y) then 366 else 365
  }

  /** The day number of January 1st. */
  function YearStart(y: int): nat
    requires y >= 1970
  {
    if y == 1970 then 0 else YearStart(y - 1) + YearLength(y - 1)
  }

  /** The closed form ECMAScript gives for it. */
  lemma {:induction false} YearStartClosed(y: int)
    requires y >= 1970
    ensures YearStart(y) == 365 * (y - 1970) + (y - 1969) / 4 - (y - 1901) / 100 + (y - 1601) / 400
  {
    if y > 1970 {
      YearStartClosed(y - 1);
      FourthYears(y - 1);
      Centuries(y - 1);
      FourthCenturies(y - 1);
      Multiples(y - 1);
    }
  }

  lemma {:induction false} FourthYears(y: int)
    ensures (y - 1968) / 4 - (y - 1969) / 4 == if y % 4 == 0 then 1 else 0
  {
  }

  lemma {:induction false} Centuries(y: int)
    ensures (y - 1900) / 100 - (y - 1901) / 100 == if y % 100 == 0 then 1 else 0
  {
  }

  lemma {:induction false} FourthCenturies(y: int)
    ensures (y - 1600) / 400 - (y - 1601) / 400 == if y % 400 == 0 then 1 else 0
  {
  }

  lemma {:induction false} Multiples(y: int)
    ensures y % 400 == 0 ==> y % 100 == 0
    ensures y % 100 == 0 ==> y % 4 == 0
  {
    if y % 400 == 0 {
      MultipleOf(100, 4 * (y / 400), y);
    }
    if y % 100 == 0 {
      MultipleOf(4, 25 * (y / 100), y);
    }
  }

  lemma {:induction false} MultipleOf(d: nat, q: int, y: int)
    requires (d == 4 || d == 100) && y == d * q
    ensures y % d == 0
  {
  }

  /** The year a day lies in, searched upwards from a year that starts no later. */
  function YearFrom(day: int, y: int): (r: int)
    requires y >= 1970 && YearStart(y) <= day
    ensures r >= y && YearStart(r) <= day < YearStart(r + 1)
    decreases day - YearStart(y)
  {
    if YearStart(y + 1) <= day then YearFrom(day, y + 1) else y
  }

  function YearOf(day: nat): (y: int)
    ensures y >= 1970 && YearStart(y) <= day < YearStart(y + 1)
  {
    YearFrom(day, 1970)
  }

  function MonthLength(m: nat, leap: bool): (n: nat)
    ensures 28 <= n <= 31
  {
    if m == 1 then (if leap then 29 else 28)
    else if m == 3 || m == 5 || m == 8 || m == 10 then 30
    else 31
  }

  /** Days before the first of month `m` (0 = January, 12 = next January). */
  function MonthStart(m: nat, leap: bool): nat {
    if m == 0 then 0 else MonthStart(m - 1, leap) + MonthLength(m - 1, leap)
  }

  lemma {:induction false} YearOfMonths(leap: bool)
    ensures MonthStart(12, leap) == if leap then 366 else 365
  {
    assert MonthStart(0, leap) == 0;
    assert MonthStart(1, leap) == 31;
    var feb := MonthStart(2, leap);
    assert feb == if leap then 60 else 59;
    assert MonthStart(4, leap) == feb + 61;
    assert MonthStart(6, leap) == feb + 122;
    assert MonthStart(8, leap) == feb + 184;
    assert MonthStart(10, leap) == feb + 245;
  }

  function MonthFrom(dayInYear: nat, leap: bool, m: nat): (r: nat)
    requires m <= 11 && MonthStart(m, leap) <= dayInYear < MonthStart(12, leap)
    ensures r <= 11 && MonthStart(r, leap) <= dayInYear < MonthStart(r + 1, leap)
    decreases 12 - m
  {
    assert m == 11 ==> MonthStart(m + 1, leap) == MonthStart(12, leap);
    if MonthStart(m + 1, leap) <= dayInYear then MonthFrom(dayInYear, leap, m + 1) else m
  }

  datatype Date = Date(year: int, month: nat, day: nat)

  /** `getUTCFullYear`, `getUTCMonth` and `getUTCDate`. */
  function DateOf(day: nat): (d: Date)
    ensures d.year == YearOf(day) && d.month <= 11 && 1 <= d.day <= 31
    ensures DayAt(d.year, d.month, d.day) == day
    ensures day < DayAt(d.year, d.month + 1, 1)
  {
    var y := YearOf(day);
    YearOfMonths(IsLeap(y));
    var n := day - YearStart(y);
    var m := MonthFrom(n, IsLeap(y), 0);
    Date(y, m, n - MonthStart(m, IsLeap(y)) + 1)
  }

  function DayAt(y: int, m: nat, d: int): int
    requires y >= 1970
  {
    YearStart(y) + MonthStart(m, IsLeap(y)) + d - 1
  }

  /** `Date.UTC(y, m, d)` in days; a month past December carries into the year. */
  function UtcDay(y: int, m: nat, d: int): int
    requires y >= 1970
  {
    DayAt(y + m / 12, m % 12, d)
  }

  lemma {:induction false} UtcInYear(y: int, m: nat, d: int)
    requires y >= 1970 && m <= 12
    ensures UtcDay(y, m, d) == DayAt(y, m, d)
  {
    YearOfMonths(IsLeap(y));
    if m == 12 {
      assert m / 12 == 1 && m % 12 == 0;
    } else {
      assert m / 12 == 0 && m % 12 == m;
    }
  }

  /** Reading a date off a day and making a day from it are inverse. */
  lemma {:induction false} DateRoundTrip(day: nat)
    ensures var d := DateOf(day); UtcDay(d.year, d.month, d.day) == day
  {
    var d := DateOf(day);
    UtcInYear(d.year, d.month, d.day);
  }

  /** A day lies between the first of its month and the first of the next. */
  lemma {:induction false} MonthHolds(day: nat)
    ensures var d := DateOf(day); UtcDay(d.year, d.month, 1) <= day < UtcDay(d.year, d.month + 1, 1)
  {
    var d := DateOf(day);
    UtcInYear(d.year, d.month, 1);
    UtcInYear(d.year, d.month + 1, 1);
  }

  lemma {:induction false} YearsApart(a: int, b: int)
    requires 1970 <= a <= b
    ensures YearStart(a) <= YearStart(b)
  {
    if a < b {
      YearsApart(a, b - 1);
    }
  }

  lemma {:induction false} YearUnique(day: nat, y: int)
    requires y >= 1970 && YearStart(y) <= day < YearStart(y + 1)
    ensures YearOf(day) == y
  {
    var r := YearOf(day);
    if r < y {
      YearsApart(r + 1, y);
    } else if y < r {
      YearsApart(y + 1, r);
    }
  }

  lemma {:induction false} MonthsApart(a: nat, b: nat, leap: bool)
    requires a <= b
    ensures MonthStart(a, leap) <= MonthStart(b, leap)
  {
    if a < b {
      MonthsApart(a, b - 1, leap);
    }
  }

  lemma {:induction false} MonthYear(day: nat, y: int, m: nat)
    requires y >= 1970 && m <= 11 && DayAt(y, m, 1) <= day < DayAt(y, m + 1, 1)
    ensures YearOf(day) == y
  {
    MonthsApart(m + 1, 12, IsLeap(y));
    YearOfMonths(IsLeap(y));
    YearUnique(day, y);
  }

  lemma {:induction false} MonthIn(n: int, leap: bool, m: nat, k: nat)
    requires MonthStart(m, leap) <= n < MonthStart(m + 1, leap)
    requires MonthStart(k, leap) <= n < MonthStart(k + 1, leap)
    ensures m == k
  {
    if k < m {
      MonthsApart(k + 1, m, leap);
    } else if m < k {
      MonthsApart(m + 1, k, leap);
    }
  }

  /** Every day between the first of a month and the first of the next carries that year and month. */
  lemma {:induction false} MonthUnique(day: nat, y: int, m: nat)
    requires y >= 1970 && m <= 11 && DayAt(y, m, 1) <= day < DayAt(y, m + 1, 1)
    ensures DateOf(day).year == y && DateOf(day).month == m
  {
    MonthYear(day, y, m);
    MonthIn(day - YearStart(y), IsLeap(y), m, DateOf(day).month);
  }

  // ---- weeks ----

  /** Monday = 0 .. Sunday = 6, from `getUTCDay`, where day 0 was a Thursday. */
  function IsoDow(day: int): (r: nat)
    ensures r == (day + 3) % 7
  {
    var getUTCDay := (day + 4) % 7;
    (getUTCDay + 6) % 7
  }

  function MondayOf(day: int): (monday: int)
    ensures monday <= day < monday + 7 && IsoDow(monday) == 0
  {
    day - IsoDow(day)
  }

  lemma {:induction false} MondaysApart(a: int, b: int)
    requires IsoDow(a) == 0 && IsoDow(b) == 0
    ensures (a - b) % 7 == 0
  {
  }

  lemma {:induction false} MondayUnique(day: int, monday: int)
    requires IsoDow(monday) == 0 && monday <= day < monday + 7
    ensures MondayOf(day) == monday
  {
    MondaysApart(MondayOf(day), monday);
  }

  /** The Monday of the week of January 4th. */
  function Week1Monday(y: int): int
    requires y >= 1970
  {
    MondayOf(UtcDay(y, 0, 4))
  }

  /** The ISO year of the week that starts on `monday`: the year of its Thursday. */
  function IsoYear(monday: int): (y: int)
    requires monday >= -3
    ensures y >= 1970
  {
    YearOf(monday + 3)
  }

  function WeekNumber(monday: int): int
    requires monday >= -3
  {
    Round((monday - Week1Monday(IsoYear(monday))) as real / 7.0) + 1
  }

  /** ISO 8601:2004, 4.1.4: the first calendar week of a year is the one holding its first Thursday. */
  predicate IsFirstThursday(day: int, y: int)
    requires y >= 1970
  {
    IsoDow(day) == 3 && YearStart(y) <= day < YearStart(y) + 7
  }

  lemma {:induction false} FirstThursday(y: int)
    requires y >= 1970
    ensures IsFirstThursday(Week1Monday(y) + 3, y)
  {
    UtcInYear(y, 0, 4);
  }

  lemma {:induction false} RoundExact(n: int)
    ensures Round((7 * n) as real / 7.0) == n
  {
    assert (7 * n) as real / 7.0 == n as real;
  }

  /** The rounded division is exact, and numbers the weeks of a year 1 to 53 from its first Thursday on. */
  lemma {:induction false} WeekNumberIs(monday: int)
    requires monday >= -3 && IsoDow(monday) == 0
    ensures 1 <= WeekNumber(monday) <= 53
    ensures monday == Week1Monday(IsoYear(monday)) + 7 * (WeekNumber(monday) - 1)
  {
    var y := IsoYear(monday);
    var first := Week1Monday(y);
    FirstThursday(y);
    MondaysApart(monday, first);
    var n := (monday - first) / 7;
    assert monday - first == 7 * n;
    RoundExact(n);
    YearStep(y);
  }

  lemma {:induction false} YearStep(y: int)
    requires y >= 1970
    ensures YearStart(y + 1) <= YearStart(y) + 366
  {
  }

  /** ISO year and week number identify exactly one Monday. */
  lemma {:induction false} WeekUnique(a: int, b: int)
    requires a >= -3 && b >= -3 && IsoDow(a) == 0 && IsoDow(b) == 0
    ensures IsoYear(a) == IsoYear(b) && WeekNumber(a) == WeekNumber(b) <==> a == b
  {
    WeekNumberIs(a);
    WeekNumberIs(b);
  }

  /** Thursdays from day `a` up to but not including day `b`. */
  function Thursdays(a: int, b: int): nat
    requires a <= b
    decreases b - a
  {
    if a == b then 0 else Thursdays(a, b - 1) + (if IsoDow(b - 1) == 3 then 1 else 0)
  }

  lemma {:induction false} ThursdaysFrom(a: int, b: int, first: int)
    requires a <= first < a + 7 && IsoDow(first) == 3 && a <= b
    ensures Thursdays(a, b) == (if b <= first then 0 else (b - 1 - first) / 7 + 1)
    decreases b - a
  {
    if a < b {
      ThursdaysFrom(a, b - 1, first);
      ThursdayIff(first, b - 1);
      if b - 1 > first {
        SevenStep(b - 1 - first);
      }
    }
  }

  lemma {:induction false} ThursdayIff(first: int, day: int)
    requires IsoDow(first) == 3
    ensures IsoDow(day) == 3 <==> (day - first) % 7 == 0
  {
  }

  lemma {:induction false} SevenStep(n: int)
    requires n > 0
    ensures n / 7 == (n - 1) / 7 + (if n % 7 == 0 then 1 else 0)
  {
  }

  /** The week number is the ordinal of the week's Thursday among the Thursdays of its year. */
  lemma {:induction false} WeekCountsThursdays(monday: int)
    requires monday >= -3 && IsoDow(monday) == 0
    ensures var y := IsoYear(monday);
            YearStart(y) <= monday + 3 < YearStart(y + 1) && Thursdays(YearStart(y), monday + 4) == WeekNumber(monday)
  {
    var y := IsoYear(monday);
    FirstThursday(y);
    WeekNumberIs(monday);
    ThursdaysFrom(YearStart(y), monday + 4, Week1Monday(y) + 3);
  }

  // ---- periods ----

  /** A period in whole days. */
  datatype Span = Span(startDay: int, endDay: int)

  /** Day 0 was a Thursday, so no week in use starts before day -3. */
  lemma {:induction false} FromThursday(day: nat)
    ensures MondayOf(day) >= -3
  {
  }

  function SpanOf(window: Window, day: nat): Span {
    var Date(y, m, d) := DateOf(day);
    match window
    case Day => Span(UtcDay(y, m, d), UtcDay(y, m, d + 1))
    case Month => Span(UtcDay(y, m, 1), UtcDay(y, m + 1, 1))
    case Week =>
      var dayStart := UtcDay(y, m, d);
      var monday := dayStart - IsoDow(dayStart);
      Span(monday, monday + 7)
  }

  function WeekParts(monday: int): seq<string>
    requires monday >= -3 && IsoDow(monday) == 0
  {
    WeekNumberIs(monday);
    [Dec(IsoYear(monday)), "W" + Pad2(WeekNumber(monday))]
  }

  function IdParts(window: Window, day: nat): (parts: seq<string>)
    ensures parts != []
  {
    var Date(y, m, d) := DateOf(day);
    match window
    case Day => [Dec(y), Pad2(m + 1), Pad2(d)]
    case Month => [Dec(y), Pad2(m + 1)]
    case Week =>
      DateRoundTrip(day);
      FromThursday(day);
      WeekParts(MondayOf(UtcDay(y, m, d)))
  }

  /** The calendar period containing `at`. */
  function PeriodOf(window: Window, at: nat): PeriodInfo {
    var day := at / DAY_MS;
    var s := SpanOf(window, day);
    PeriodInfo(Join(IdParts(window, day), '-'), s.startDay * DAY_MS, s.endDay * DAY_MS)
  }

  // ---- keys and ranges agree ----

  lemma {:induction false} SpanHolds(window: Window, day: nat)
    ensures var s := SpanOf(window, day); s.startDay <= day < s.endDay
  {
    var d := DateOf(day);
    DateRoundTrip(day);
    match window
    case Day => UtcInYear(d.year, d.month, d.day); UtcInYear(d.year, d.month, d.day + 1);
    case Month => MonthHolds(day);
    case Week => FromThursday(day);
  }

  lemma {:induction false} DayUnique(a: nat, b: nat)
    requires SpanOf(Day, a).startDay <= b < SpanOf(Day, a).endDay
    ensures a == b
  {
    var d := DateOf(a);
    UtcInYear(d.year, d.month, d.day);
    UtcInYear(d.year, d.month, d.day + 1);
  }

  lemma {:induction false} MonthSame(a: nat, b: nat)
    requires SpanOf(Month, a).startDay <= b < SpanOf(Month, a).endDay
    ensures DateOf(b).year == DateOf(a).year && DateOf(b).month == DateOf(a).month
  {
    var d := DateOf(a);
    UtcInYear(d.year, d.month, 1);
    UtcInYear(d.year, d.month + 1, 1);
    MonthUnique(b, d.year, d.month);
  }

  lemma {:induction false} WeekSpanIs(day: nat)
    ensures SpanOf(Week, day) == Span(MondayOf(day), MondayOf(day) + 7)
    ensures MondayOf(day) >= -3 && IdParts(Week, day) == WeekParts(MondayOf(day))
  {
    DateRoundTrip(day);
    FromThursday(day);
  }

  lemma {:induction false} WeekSame(a: nat, b: nat)
    requires SpanOf(Week, a).startDay <= b < SpanOf(Week, a).endDay
    ensures SpanOf(Week, b) == SpanOf(Week, a) && IdParts(Week, b) == IdParts(Week, a)
  {
    WeekSpanIs(a);
    WeekSpanIs(b);
    MondayUnique(b, MondayOf(a));
  }

  /** A day inside another day's period has that same period. */
  lemma {:induction false} SpanUnique(window: Window, a: nat, b: nat)
    requires SpanOf(window, a).startDay <= b < SpanOf(window, a).endDay
    ensures SpanOf(window, b) == SpanOf(window, a) && IdParts(window, b) == IdParts(window, a)
  {
    match window
    case Day => DayUnique(a, b);
    case Month => MonthSame(a, b);
    case Week => WeekSame(a, b);
  }

  predicate Decimal(s: string) { forall i :: 0 <= i < |s| ==> '0' <= s[i] <= '9' }

  lemma {:induction false} DecimalFields(s: string)
    requires Decimal(s)
    ensures Without(s, '-') && Without(s, ':') && Without("W" + s, '-') && Without("W" + s, ':')
  {
  }

  lemma {:induction false} SameDec(a: nat, b: nat)
    requires Dec(a) == Dec(b)
    ensures a == b
  {
    DecValue(a);
    DecValue(b);
  }

  lemma {:induction false} SamePad2(a: nat, b: nat)
    requires Pad2(a) == Pad2(b)
    ensures a == b
  {
    Pad2Value(a);
    Pad2Value(b);
  }

  predicate Plain(parts: seq<string>) { AllWithout(parts, '-') && AllWithout(parts, ':') }

  lemma {:induction false} PlainParts(window: Window, day: nat)
    ensures Plain(IdParts(window, day))
  {
    var d := DateOf(day);
    match window
    case Day => PlainDate(d);
    case Month => PlainDate(d);
    case Week =>
      WeekSpanIs(day);
      var monday := MondayOf(day);
      WeekNumberIs(monday);
      DecimalFields(Dec(IsoYear(monday)));
      DecimalFields(Pad2(WeekNumber(monday)));
  }

  lemma {:induction false} PlainDate(d: Date)
    requires d.year >= 1970
    ensures Plain([Dec(d.year), Pad2(d.month + 1), Pad2(d.day)]) && Plain([Dec(d.year), Pad2(d.month + 1)])
  {
    DecimalFields(Dec(d.year));
    DecimalFields(Pad2(d.month + 1));
    DecimalFields(Pad2(d.day));
  }

  lemma {:induction false} DayPartsInjective(a: nat, b: nat)
    requires IdParts(Day, a) == IdParts(Day, b)
    ensures a == b
  {
    var d, e := DateOf(a), DateOf(b);
    SameDec(d.year, e.year);
    SamePad2(d.month + 1, e.month + 1);
    SamePad2(d.day, e.day);
  }

  lemma {:induction false} MonthPartsInjective(a: nat, b: nat)
    requires IdParts(Month, a) == IdParts(Month, b)
    ensures SpanOf(Month, a) == SpanOf(Month, b)
  {
    var d, e := DateOf(a), DateOf(b);
    SameDec(d.year, e.year);
    SamePad2(d.month + 1, e.month + 1);
  }

  lemma {:induction false} WeekPartsInjective(a: int, b: int)
    requires a >= -3 && b >= -3 && IsoDow(a) == 0 && IsoDow(b) == 0
    ensures WeekParts(a) == WeekParts(b) ==> a == b
  {
    WeekNumberIs(a);
    WeekNumberIs(b);
    var v, w := WeekNumber(a), WeekNumber(b);
    if WeekParts(a) == WeekParts(b) {
      assert Pad2(v) == WeekParts(a)[1][1..] == WeekParts(b)[1][1..] == Pad2(w);
      SameDec(IsoYear(a), IsoYear(b));
      SamePad2(v, w);
      WeekUnique(a, b);
    }
  }

  lemma {:induction false} IdInjective(window: Window, a: nat, b: nat)
    requires Join(IdParts(window, a), '-') == Join(IdParts(window, b), '-')
    ensures SpanOf(window, a) == SpanOf(window, b)
  {
    PlainParts(window, a);
    PlainParts(window, b);
    JoinInjective(IdParts(window, a), IdParts(window, b), '-');
    match window
    case Day => DayPartsInjective(a, b);
    case Month => MonthPartsInjective(a, b);
    case Week =>
      WeekSpanIs(a);
      WeekSpanIs(b);
      WeekPartsInjective(MondayOf(a), MondayOf(b));
  }

  lemma {:induction false} InDays(at: nat, day: int)
    ensures day * DAY_MS <= at <==> day <= at / DAY_MS
    ensures at < day * DAY_MS <==> at / DAY_MS < day
  {
  }

  /** For every window and any two instants, the period ids are equal exactly when one instant lies in the other's
      half-open range; then the ranges are equal too. */
  lemma {:induction false} SamePeriodIff(window: Window, a: nat, b: nat)
    ensures var p, q := PeriodOf(window, a), PeriodOf(window, b);
            (p.periodId == q.periodId <==> p.startMs <= b < p.endMs) && (p.periodId == q.periodId ==> p == q)
  {
    var d, e := a / DAY_MS, b / DAY_MS;
    var s := SpanOf(window, d);
    InDays(b, s.startDay);
    InDays(b, s.endDay);
    if PeriodOf(window, a).periodId == PeriodOf(window, b).periodId {
      IdInjective(window, d, e);
      SpanHolds(window, e);
    } else if s.startDay <= e < s.endDay {
      SpanUnique(window, d, e);
    }
  }

  /** Periods tile the time line: each holds the instants that name it, and the next begins where it ends. */
  lemma {:induction false} PeriodsTile(window: Window, at: nat)
    ensures var p := PeriodOf(window, at);
            p.startMs <= at < p.endMs && PeriodOf(window, p.endMs).startMs == p.endMs
  {
    var s := SpanOf(window, at / DAY_MS);
    SpanHolds(window, at / DAY_MS);
    InDays(at, s.startDay);
    InDays(at, s.endDay);
    SpanNext(window, at / DAY_MS);
    assert s.endDay * DAY_MS / DAY_MS == s.endDay;
  }

  lemma {:induction false} IdText(parts: seq<string>)
    requires |parts| == 2 || |parts| == 3
    ensures Join(parts, '-') == parts[0] + "-" + parts[1] + (if |parts| == 3 then "-" + parts[2] else "")
  {
    assert Join(parts[1..], '-') == parts[1] + (if |parts| == 3 then "-" + parts[2] else "");
  }

  /** A day's period is that day, under its date. */
  lemma {:induction false} DayIs(at: nat)
    ensures var p, day := PeriodOf(Day, at), at / 86400000;
            var d := DateOf(day);
            && p.startMs == day * 86400000 && p.endMs == day * 86400000 + 86400000
            && p.periodId == Dec(d.year) + "-" + Pad2(d.month + 1) + "-" + Pad2(d.day)
  {
    var d := DateOf(at / DAY_MS);
    UtcInYear(d.year, d.month, d.day);
    UtcInYear(d.year, d.month, d.day + 1);
    IdText([Dec(d.year), Pad2(d.month + 1), Pad2(d.day)]);
  }

  /** A month's period is the days of its year and month, under both. */
  lemma {:induction false} MonthIs(at: nat, day: nat)
    ensures var p, d := PeriodOf(Month, at), DateOf(at / 86400000);
            && (p.startMs <= day * 86400000 < p.endMs <==> DateOf(day).year == d.year && DateOf(day).month == d.month)
            && p.periodId == Dec(d.year) + "-" + Pad2(d.month + 1)
  {
    var d := DateOf(at / DAY_MS);
    IdText([Dec(d.year), Pad2(d.month + 1)]);
    UtcInYear(d.year, d.month, 1);
    UtcInYear(d.year, d.month + 1, 1);
    MonthHolds(day);
    if UtcDay(d.year, d.month, 1) <= day < UtcDay(d.year, d.month + 1, 1) {
      MonthUnique(day, d.year, d.month);
    }
  }

  /** A week's period is the seven days from its Monday - day -3 was one - under its ISO year and number. */
  lemma {:induction false} WeekIs(at: nat)
    ensures var p := PeriodOf(Week, at);
            var monday := at / 86400000 - (at / 86400000 + 3) % 7;
            && p.startMs == monday * 86400000 && p.endMs == p.startMs + 604800000 && IsoDow(monday) == 0 && monday >= -3
            && p.periodId == Dec(IsoYear(monday)) + "-W" + Pad2(WeekNumber(monday))
  {
    var day := at / DAY_MS;
    WeekSpanIs(day);
    FromThursday(day);
    IdText(WeekParts(MondayOf(day)));
  }

  /** Ranges that hold their own days, and name a day's range by any of its days, follow on one another. */
  lemma {:induction false} FollowsOn(span: nat -> Span, day: nat)
    requires forall d: nat :: span(d).startDay <= d < span(d).endDay
    requires forall d: nat, e: nat :: span(d).startDay <= e < span(d).endDay ==> span(e) == span(d)
    ensures var end := span(day).endDay; end > day && span(end).startDay == end
  {
    var end := span(day).endDay;
    assert span(end - 1).endDay == end < span(end).endDay;
  }

  lemma {:induction false} SpanNext(window: Window, day: nat)
    ensures var end := SpanOf(window, day).endDay; end > day && SpanOf(window, end).startDay == end
  {
    var span := (d: nat) => SpanOf(window, d);
    forall d: nat
      ensures span(d).startDay <= d < span(d).endDay
    {
      SpanHolds(window, d);
    }
    forall d: nat, e: nat | span(d).startDay <= e < span(d).endDay
      ensures span(e) == span(d)
    {
      SpanUnique(window, d, e);
    }
    FollowsOn(span, day);
  }
}
