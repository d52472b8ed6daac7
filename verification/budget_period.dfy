/** Budget years: from an instant to a calendar year in the organisation's time zone, and from
    a calendar year to its half-open UTC interval. Instants are milliseconds since 1970. */
module BudgetPeriod {

  const SECOND_MS := 1_000
  const HOUR_MS := 3_600_000
  const DAY_MS := 86_400_000
  const MAX_ATTEMPTS := 48

  /** A time zone with a constant offset in whole seconds. With `hour12: false` and no explicit
      hour cycle, formatters differ in whether midnight reads as hour 0 or as hour 24. */
  datatype Zone = Zone(offset: int, midnightReads24: bool)

  type FixedZone = z: Zone | -12 * 3600 <= z.offset <= 14 * 3600 witness Zone(0, false)

  /** What `formatToParts` yields. */
  datatype ClockParts = ClockParts(year: int, month: int, day: int, hour: int, minute: int, second: int)

  // ---------- The proleptic Gregorian calendar ----------

  predicate IsLeap(year: int) {
    year % 4 == 0 && (year % 100 != 0 || year % 400 == 0)
  }

  /** Days from 1970-01-01 to January 1 of `year`. */
  function FirstDay(year: int): int {
    365 * (year - 1) + (year - 1) / 4 - (year - 1) / 100 + (year - 1) / 400 - 719162
  }

  function MonthStart(leap: bool, month: int): int
    requires 1 <= month <= 13
  {
    var common := [0, 31, 59, 90, 120, 151, 181, 212, 243, 273, 304, 334, 365];
    common[month - 1] + if leap && 3 <= month then 1 else 0
  }

  predicate ValidDate(year: int, month: int, day: int) {
    && 1 <= month <= 12
    && 1 <= day <= MonthStart(IsLeap(year), month + 1) - MonthStart(IsLeap(year), month)
  }

  function DayNumber(year: int, month: int, day: int): int
    requires ValidDate(year, month, day)
  {
    FirstDay(year) + MonthStart(IsLeap(year), month) + day - 1
  }

  lemma YearLength(year: int)
    ensures FirstDay(year + 1) - FirstDay(year) == MonthStart(IsLeap(year), 13)
  {
    assert year / 4 - (year - 1) / 4 == if year % 4 == 0 then 1 else 0;
    assert year / 100 - (year - 1) / 100 == if year % 100 == 0 then 1 else 0;
    assert year / 400 - (year - 1) / 400 == if year % 400 == 0 then 1 else 0;
  }

  /** The months as everybody counts them. */
  function MonthLength(leap: bool, month: int): int {
    if month == 4 || month == 6 || month == 9 || month == 11 then 30
    else if month != 2 then 31
    else if leap then 29
    else 28
  }

  lemma MonthsAreCounted(leap: bool, month: int)
    requires 1 <= month <= 12
    ensures MonthStart(leap, month + 1) == MonthStart(leap, month) + MonthLength(leap, month)
    ensures MonthStart(leap, 1) == 0
  {
  }

  /** Days from 1970-01-01 to January 1 of `year`, counted year by year. */
  function CountedDays(year: int): int
    decreases if year < 1970 then 1970 - year else year - 1970
  {
    if year == 1970 then 0
    else if 1970 < year then CountedDays(year - 1) + CountedYear(year - 1)
    else CountedDays(year + 1) - CountedYear(year)
  }

  function CountedYear(year: int): int {
    if year % 400 == 0 then 366
    else if year % 100 == 0 then 365
    else if year % 4 == 0 then 366
    else 365
  }

  /** The closed form of the calendar is the count. */
  lemma {:induction false} FirstDayIsCounted(year: int)
    ensures FirstDay(year) == CountedDays(year)
    decreases if year < 1970 then 1970 - year else year - 1970
  {
    if year == 1970 {
      assert FirstDay(1970) == 0;
    } else if 1970 < year {
      FirstDayIsCounted(year - 1);
      YearLength(year - 1);
      YearIsCounted(year - 1);
    } else {
      FirstDayIsCounted(year + 1);
      YearLength(year);
      YearIsCounted(year);
    }
  }

  lemma YearIsCounted(year: int)
    ensures MonthStart(IsLeap(year), 13) == CountedYear(year)
    ensures IsLeap(year) <==> CountedYear(year) == 366
  {
    Centuries(year);
  }

  lemma Centuries(year: int)
    ensures year % 400 == 0 ==> year % 100 == 0
    ensures year % 100 == 0 ==> year % 4 == 0
  {
    var p, q, r := year / 400, year / 100, year / 4;
    assert year == 400 * p + year % 400 && year == 100 * q + year % 100 && year == 4 * r + year % 4;
    if year % 400 == 0 {
      assert year % 100 == 100 * (4 * p - q);
    }
    if year % 100 == 0 {
      assert year % 4 == 4 * (25 * q - r);
    }
  }

  /** A date is the count of the days of the years and months before it. */
  lemma DatesAreCounted(year: int, month: int, day: int)
    requires ValidDate(year, month, day)
    ensures 1 <= day <= MonthLength(CountedYear(year) == 366, month)
    ensures DayNumber(year, month, day) == CountedDays(year) + CountedMonths(CountedYear(year) == 366, month) + day - 1
  {
    FirstDayIsCounted(year);
    YearIsCounted(year);
    MonthsAreCounted(IsLeap(year), month);
    MonthStartIsCounted(IsLeap(year), month);
  }

  function CountedMonths(leap: bool, month: int): int
    requires 1 <= month <= 13
  {
    if month == 1 then 0 else CountedMonths(leap, month - 1) + MonthLength(leap, month - 1)
  }

  lemma {:induction false} MonthStartIsCounted(leap: bool, month: int)
    requires 1 <= month <= 13
    ensures MonthStart(leap, month) == CountedMonths(leap, month)
  {
    if month != 1 {
      MonthStartIsCounted(leap, month - 1);
      MonthsAreCounted(leap, month - 1);
    }
  }

  lemma {:induction false} YearsAreOrdered(early: int, late: int)
    requires early < late
    ensures FirstDay(early) + 365 <= FirstDay(late)
    decreases late - early
  {
    YearLength(late - 1);
    if early + 1 < late {
      YearsAreOrdered(early, late - 1);
    }
  }

  /** The calendar year that contains a day. */
  function YearOfDay(n: int): (year: int)
    ensures FirstDay(year) <= n < FirstDay(year + 1)
  {
    var estimate := 400 * (n + 719162) / 146097 + 1;
    if n < FirstDay(estimate + 1) then estimate else estimate + 1
  }

  lemma YearOfDayIsUnique(n: int, year: int)
    requires FirstDay(year) <= n < FirstDay(year + 1)
    ensures YearOfDay(n) == year
  {
    var found := YearOfDay(n);
    if found < year {
      if found + 1 < year { YearsAreOrdered(found + 1, year); }
    } else if year < found {
      if year + 1 < found { YearsAreOrdered(year + 1, found); }
    }
  }

  function MonthOfYearDay(leap: bool, dayOfYear: int): (month: int)
    requires 0 <= dayOfYear < MonthStart(leap, 13)
    ensures 1 <= month <= 12
    ensures MonthStart(leap, month) <= dayOfYear < MonthStart(leap, month + 1)
  {
    MonthFrom(leap, dayOfYear, 12)
  }

  function MonthFrom(leap: bool, dayOfYear: int, month: int): (found: int)
    requires 1 <= month <= 12 && 0 <= dayOfYear < MonthStart(leap, month + 1)
    ensures 1 <= found <= month
    ensures MonthStart(leap, found) <= dayOfYear < MonthStart(leap, found + 1)
    decreases month
  {
    if MonthStart(leap, month) <= dayOfYear then month else MonthFrom(leap, dayOfYear, month - 1)
  }

  // ---------- Reading a wall clock ----------

  function LocalMs(ms: int, zone: FixedZone): int {
    ms + zone.offset * SECOND_MS
  }

  function LocalDay(ms: int, zone: FixedZone): int {
    LocalMs(ms, zone) / DAY_MS
  }

  function LocalParts(ms: int, zone: FixedZone): ClockParts {
    var n := LocalDay(ms, zone);
    var seconds := LocalMs(ms, zone) % DAY_MS / SECOND_MS;
    var year := YearOfDay(n);
    YearLength(year);
    var month := MonthOfYearDay(IsLeap(year), n - FirstDay(year));
    var hour := seconds / 3600;
    ClockParts(year, month, n - FirstDay(year) - MonthStart(IsLeap(year), month) + 1,
               if hour == 0 && zone.midnightReads24 then 24 else hour,
               seconds % 3600 / 60, seconds % 60)
  }

  function ResolveBudgetYear(ms: int, zone: FixedZone): int {
    YearOfDay(LocalDay(ms, zone))
  }

  /** The clock shows a date exactly on that date's day number. */
  lemma DateMatchesDay(ms: int, zone: FixedZone, year: int, month: int, day: int)
    requires ValidDate(year, month, day)
    ensures (LocalParts(ms, zone).year == year && LocalParts(ms, zone).month == month
             && LocalParts(ms, zone).day == day)
            <==> LocalDay(ms, zone) == DayNumber(year, month, day)
  {
    if LocalDay(ms, zone) == DayNumber(year, month, day) {
      DateOfDay(ms, zone, year, month, day);
    }
  }

  lemma DateOfDay(ms: int, zone: FixedZone, year: int, month: int, day: int)
    requires ValidDate(year, month, day) && LocalDay(ms, zone) == DayNumber(year, month, day)
    ensures LocalParts(ms, zone).year == year && LocalParts(ms, zone).month == month && LocalParts(ms, zone).day == day
  {
    var n := LocalDay(ms, zone);
    YearLength(year);
    MonthEndsWithinYear(IsLeap(year), month);
    YearOfDayIsUnique(n, year);
    MonthOfDay(IsLeap(year), n - FirstDay(year), month);
  }

  lemma MonthOfDay(leap: bool, dayOfYear: int, month: int)
    requires 1 <= month <= 12 && MonthStart(leap, month) <= dayOfYear < MonthStart(leap, month + 1)
    requires 0 <= dayOfYear < MonthStart(leap, 13)
    ensures MonthOfYearDay(leap, dayOfYear) == month
  {
    var found := MonthOfYearDay(leap, dayOfYear);
    MonthsAreOrdered(leap, found, month);
    MonthsAreOrdered(leap, month, found);
  }

  lemma MonthEndsWithinYear(leap: bool, month: int)
    requires 1 <= month <= 12
    ensures 0 <= MonthStart(leap, month) < MonthStart(leap, month + 1) <= MonthStart(leap, 13)
  {
  }

  lemma MonthsAreOrdered(leap: bool, early: int, late: int)
    requires 1 <= early <= 12 && 1 <= late <= 12
    ensures early < late ==> MonthStart(leap, early + 1) <= MonthStart(leap, late)
  {
  }

  // ---------- The search for local midnight ----------

  function UtcMidnight(year: int, month: int, day: int): int
    requires ValidDate(year, month, day)
  {
    DayNumber(year, month, day) * DAY_MS
  }

  function LocalMidnight(year: int, month: int, day: int, zone: FixedZone): int
    requires ValidDate(year, month, day)
  {
    UtcMidnight(year, month, day) - zone.offset * SECOND_MS
  }

  /** Where the search ends up: with hour 24 at midnight it never recognises a midnight and
      falls back to the UTC one. */
  function ZonedMidnight(year: int, month: int, day: int, zone: FixedZone): int
    requires ValidDate(year, month, day)
  {
    if zone.midnightReads24 then UtcMidnight(year, month, day)
    else LocalMidnight(year, month, day, zone)
  }

  /** One call of the formatter, with what it says about the midnight sought. */
  method ReadClock(ms: int, zone: FixedZone, ghost year: int, ghost month: int, ghost day: int)
    returns (parts: ClockParts)
    requires ValidDate(year, month, day) && ms % SECOND_MS == 0
    ensures Reads(parts, ms, zone, LocalMidnight(year, month, day, zone), ClockParts(year, month, day, 0, 0, 0))
  {
    parts := LocalParts(ms, zone);
    ClockAtDistance(ms, zone, year, month, day);
  }

  /** The time of day is the distance from the midnight sought, modulo a day, except that the first
      hour of a day may count as its 24th; the parts are those of the midnight sought exactly then,
      and never when midnight reads as hour 24. */
  ghost predicate Reads(parts: ClockParts, ms: int, zone: FixedZone, target: int, midnight: ClockParts) {
    && SinceMidnight(parts) == TimeShown((ms - target) % DAY_MS, zone)
    && (parts == midnight <==> ms == target && !zone.midnightReads24)
  }

  function TimeShown(sinceMidnight: int, zone: FixedZone): int {
    if zone.midnightReads24 && sinceMidnight < HOUR_MS then sinceMidnight + DAY_MS else sinceMidnight
  }

  /** `Date.UTC` reads years 0 to 99 as 1900 to 1999, hence the bound on `year`. */
  method ZonedMidnightToUtc(year: int, month: int, day: int, zone: FixedZone)
    returns (result: int, ghost attempts: nat)
    requires 100 <= year && ValidDate(year, month, day)
    ensures result == ZonedMidnight(year, month, day, zone)
    ensures result == (CountedDays(year) + CountedMonths(CountedYear(year) == 366, month) + day - 1) * 86_400_000
                      - if zone.midnightReads24 then 0 else zone.offset * 1_000
    ensures attempts <= if zone.midnightReads24 then MAX_ATTEMPTS else 4
  {
    DatesAreCounted(year, month, day);
    ghost var target := LocalMidnight(year, month, day, zone);
    var midnight := ClockParts(year, month, day, 0, 0, 0);
    var utc := UtcMidnight(year, month, day);
    var ms := utc + 12 * HOUR_MS;
    NoonIsClose(year, month, day, zone);
    var attempt := 0;
    while attempt < MAX_ATTEMPTS
      invariant 0 <= attempt <= MAX_ATTEMPTS
      invariant Searching(ms, target, attempt, zone)
    {
      var parts := ReadClock(ms, zone, year, month, day);
      if parts == midnight {
        return ms, attempt + 1;
      }
      StepBack(ms, parts, target, midnight, attempt, zone);
      var sinceMidnight := SinceMidnight(parts);
      ms := ms - if sinceMidnight != 0 then sinceMidnight else HOUR_MS;
      attempt := attempt + 1;
    }
    return utc, attempt;
  }

  ghost predicate Searching(ms: int, target: int, attempt: int, zone: FixedZone) {
    ms % SECOND_MS == 0 && (zone.midnightReads24 || (attempt <= 3 && Approaching(ms - target, attempt)))
  }

  /** How far past the local midnight sought the search can be at each attempt. */
  predicate Approaching(distance: int, attempt: int) {
    || (attempt == 0 && 0 <= distance <= 26 * HOUR_MS)
    || (attempt == 1 && (distance == 0 || distance == DAY_MS || distance == 23 * HOUR_MS))
    || (attempt == 2 && (distance == 0 || distance == 23 * HOUR_MS))
    || (attempt == 3 && distance == 0)
  }

  /** Milliseconds since midnight as the search computes them. */
  function SinceMidnight(p: ClockParts): int {
    (p.hour * 3600 + p.minute * 60 + p.second) * SECOND_MS
  }

  lemma SinceMidnightIsSeconds(p: ClockParts)
    ensures SinceMidnight(p) % SECOND_MS == 0
  {
  }

  lemma TimeOfDay(ms: int, zone: FixedZone)
    requires ms % SECOND_MS == 0
    ensures SinceMidnight(LocalParts(ms, zone)) == TimeShown(LocalMs(ms, zone) % DAY_MS, zone)
  {
    var local := LocalMs(ms, zone);
    assert local % SECOND_MS == 0;
    var rest := local % DAY_MS;
    assert rest % SECOND_MS == 0 by {
      assert rest == local - DAY_MS * (local / DAY_MS);
    }
    var s := rest / SECOND_MS;
    assert rest == s * SECOND_MS;
    assert s == s / 3600 * 3600 + s % 3600;
    assert s % 3600 == s % 3600 / 60 * 60 + s % 3600 % 60;
    assert s % 3600 % 60 == s % 60;
  }

  lemma DayAtDistance(ms: int, zone: FixedZone, year: int, month: int, day: int)
    requires ValidDate(year, month, day)
    ensures var distance := ms - LocalMidnight(year, month, day, zone);
            && LocalMs(ms, zone) % DAY_MS == distance % DAY_MS
            && LocalDay(ms, zone) == DayNumber(year, month, day) + distance / DAY_MS
  {
    var n := DayNumber(year, month, day);
    var distance := ms - LocalMidnight(year, month, day, zone);
    assert LocalMs(ms, zone) == n * DAY_MS + distance;
    assert (n * DAY_MS + distance) / DAY_MS == n + distance / DAY_MS;
    assert (n * DAY_MS + distance) % DAY_MS == distance % DAY_MS;
  }

  lemma NoonIsClose(year: int, month: int, day: int, zone: FixedZone)
    requires ValidDate(year, month, day)
    ensures Searching(UtcMidnight(year, month, day) + 12 * HOUR_MS, LocalMidnight(year, month, day, zone), 0, zone)
  {
    NoonOf(DayNumber(year, month, day), zone.offset);
  }

  lemma NoonOf(n: int, offset: int)
    requires -12 * 3600 <= offset <= 14 * 3600
    ensures (n * DAY_MS + 12 * HOUR_MS) % SECOND_MS == 0
    ensures Approaching((n * DAY_MS + 12 * HOUR_MS) - (n * DAY_MS - offset * SECOND_MS), 0)
  {
    assert n * DAY_MS + 12 * HOUR_MS == (n * 86_400 + 43_200) * SECOND_MS;
  }

  lemma StepBack(ms: int, parts: ClockParts, target: int, midnight: ClockParts, attempt: int, zone: FixedZone)
    requires Searching(ms, target, attempt, zone) && Reads(parts, ms, zone, target, midnight)
    requires parts != midnight && 0 <= attempt
    ensures Searching(ms - if SinceMidnight(parts) != 0 then SinceMidnight(parts) else HOUR_MS, target, attempt + 1,
                      zone)
  {
    SinceMidnightIsSeconds(parts);
    StaysOnSeconds(ms, if SinceMidnight(parts) != 0 then SinceMidnight(parts) else HOUR_MS);
    if !zone.midnightReads24 {
      Retreat(ms - target, attempt);
    }
  }

  lemma StaysOnSeconds(ms: int, back: int)
    requires ms % SECOND_MS == 0 && back % SECOND_MS == 0
    ensures (ms - back) % SECOND_MS == 0
  {
  }

  /** What the clock shows says how far the instant is from the midnight sought. */
  lemma ClockAtDistance(ms: int, zone: FixedZone, year: int, month: int, day: int)
    requires ValidDate(year, month, day) && ms % SECOND_MS == 0
    ensures Reads(LocalParts(ms, zone), ms, zone, LocalMidnight(year, month, day, zone),
                  ClockParts(year, month, day, 0, 0, 0))
  {
    TimeOfDay(ms, zone);
    DayAtDistance(ms, zone, year, month, day);
    DateMatchesDay(ms, zone, year, month, day);
  }

  /** Each step of the search goes back to the start of a local day, or an hour from there. */
  lemma Retreat(distance: int, attempt: int)
    requires 0 <= attempt <= 3 && Approaching(distance, attempt) && distance != 0
    ensures attempt < 3
    ensures Approaching(distance - if distance % DAY_MS != 0 then distance % DAY_MS else HOUR_MS, attempt + 1)
  {
  }

  // ---------- Year ranges ----------

  function YearStart(year: int, zone: FixedZone): int {
    ZonedMidnight(year, 1, 1, zone)
  }

  /** Membership in the half-open interval that `budgetYearRangeInTimeZone` returns. */
  predicate InBudgetYear(ms: int, year: int, zone: FixedZone) {
    YearStart(year, zone) <= ms < YearStart(year + 1, zone)
  }

  method BudgetYearRangeInTimeZone(year: int, zone: FixedZone) returns (start: int, end: int)
    requires 100 <= year
    ensures forall ms :: start <= ms < end <==> InBudgetYear(ms, year, zone)
    ensures start == CountedDays(year) * 86_400_000 - if zone.midnightReads24 then 0 else zone.offset * 1_000
    ensures end == CountedDays(year + 1) * 86_400_000 - if zone.midnightReads24 then 0 else zone.offset * 1_000
    ensures start < end
  {
    ghost var attempts;
    start, attempts := ZonedMidnightToUtc(year, 1, 1, zone);
    end, attempts := ZonedMidnightToUtc(year + 1, 1, 1, zone);
    YearLength(year);
    YearStartIsCounted(year, zone);
    YearStartIsCounted(year + 1, zone);
  }

  /** A budget year starts with the midnight of its first counted day, east of Greenwich earlier than in
      UTC by the offset; with an hour-24 clock, always with the UTC midnight. */
  lemma YearStartIsCounted(year: int, zone: FixedZone)
    ensures YearStart(year, zone) ==
              CountedDays(year) * 86_400_000 - if zone.midnightReads24 then 0 else zone.offset * 1_000
  {
    DatesAreCounted(year, 1, 1);
  }

  /** The budget year of an instant is the one among whose counted days its local day is. */
  lemma YearsAreResolvedByCount(ms: int, zone: FixedZone, year: int)
    ensures ResolveBudgetYear(ms, zone) == year <==>
              CountedDays(year) * 86_400_000 <= ms + zone.offset * 1_000 < CountedDays(year + 1) * 86_400_000
  {
    FirstDayIsCounted(year);
    FirstDayIsCounted(year + 1);
    var n := LocalDay(ms, zone);
    assert FirstDay(year) * DAY_MS <= LocalMs(ms, zone) <==> FirstDay(year) <= n;
    assert LocalMs(ms, zone) < FirstDay(year + 1) * DAY_MS <==> n < FirstDay(year + 1);
    if FirstDay(year) <= n < FirstDay(year + 1) {
      YearOfDayIsUnique(n, year);
    }
  }

  /** Local midnights cut time exactly where the resolved year changes. */
  lemma LocalRangesMatchYears(ms: int, year: int, zone: FixedZone)
    ensures LocalMidnight(year, 1, 1, zone) <= ms < LocalMidnight(year + 1, 1, 1, zone)
            <==> ResolveBudgetYear(ms, zone) == year
  {
    var n := LocalDay(ms, zone);
    assert LocalMidnight(year, 1, 1, zone) <= ms <==> FirstDay(year) <= n;
    assert ms < LocalMidnight(year + 1, 1, 1, zone) <==> n < FirstDay(year + 1);
    if FirstDay(year) <= n < FirstDay(year + 1) {
      YearOfDayIsUnique(n, year);
    }
  }

  /** The ranges the program sums over are the years it books under. */
  predicate RangesAreExact(zone: FixedZone) {
    !zone.midnightReads24 || zone.offset == 0
  }

  lemma RangeMatchesYear(ms: int, year: int, zone: FixedZone)
    requires RangesAreExact(zone)
    ensures InBudgetYear(ms, year, zone) <==> ResolveBudgetYear(ms, zone) == year
  {
    LocalRangesMatchYears(ms, year, zone);
  }

  /** With hour 24 at midnight, any offset but 0 books some instant of our time under a year whose
      range does not hold it; the range of the year beside it does. */
  lemma MisplacedInstant(zone: FixedZone) returns (ms: int, holder: int)
    requires !RangesAreExact(zone)
    ensures ResolveBudgetYear(ms, zone) == 2023 || ResolveBudgetYear(ms, zone) == 2024
    ensures holder == 2023 || holder == 2024
    ensures !InBudgetYear(ms, ResolveBudgetYear(ms, zone), zone)
    ensures InBudgetYear(ms, holder, zone) && holder != ResolveBudgetYear(ms, zone)
  {
    var utcStart := UtcMidnight(2024, 1, 1);
    ms, holder := if zone.offset < 0 then utcStart else utcStart - 1, if zone.offset < 0 then 2024 else 2023;
    LocalRangesMatchYears(ms, 4047 - holder, zone);
    YearLength(2023);
    YearLength(2024);
  }

  /** The exact condition for ranges and booked years to be the same. */
  lemma RangesMatchYearsExactly(zone: FixedZone)
    ensures RangesAreExact(zone) <==>
            forall ms, year :: InBudgetYear(ms, year, zone) <==> ResolveBudgetYear(ms, zone) == year
  {
    if RangesAreExact(zone) {
      forall ms, year
        ensures InBudgetYear(ms, year, zone) <==> ResolveBudgetYear(ms, zone) == year
      {
        RangeMatchesYear(ms, year, zone);
      }
    } else {
      var ms, holder := MisplacedInstant(zone);
      var year := ResolveBudgetYear(ms, zone);
      assert !(InBudgetYear(ms, year, zone) <==> ResolveBudgetYear(ms, zone) == year);
    }
  }

  /** Every instant lies in one and only one budget year. */
  lemma YearRangesTileTime(ms: int, zone: FixedZone)
    ensures InBudgetYear(ms, YearOfDay(LocalMs(ms, if zone.midnightReads24 then Zone(0, true) else zone) / DAY_MS),
                         zone)
    ensures forall y1, y2 :: InBudgetYear(ms, y1, zone) && InBudgetYear(ms, y2, zone) ==> y1 == y2
  {
    var clock: FixedZone := if zone.midnightReads24 then Zone(0, true) else zone;
    forall year
      ensures InBudgetYear(ms, year, zone) <==> ResolveBudgetYear(ms, clock) == year
    {
      LocalRangesMatchYears(ms, year, clock);
    }
  }
}
