/**
The container-hours windows: a calendar month, or a month running from an anchor day clamped to each
month's length. Instants are milliseconds from the epoch.
*/
module Budget {
  import opened Prelude
  import opened Calendar

  const DAY_MS := 86_400_000
  const ANCHOR_MIN_DAY := 1
  const ANCHOR_MAX_DAY := 31
  const MONTH_STRIDE_DAYS := 32

  type Instant = int

  function DayOf(t: Instant): int { t / DAY_MS }

  function UtcYear(t: Instant): int { YearFromDay(DayOf(t)) }

  function UtcMonth(t: Instant): int { MonthFromDay(DayOf(t)) }

  /** `Date.UTC` reads a year from 0 to 99 as one of the twentieth century. */
  function UtcYearArgument(year: int): int { if 0 <= year <= 99 then 1900 + year else year }

  function DateUtc(year: int, month: int, date: int): Instant {
    MakeDay(UtcYearArgument(year), month, date) * DAY_MS
  }

  function OccurrenceInMonth(year: int, month: int, day: int): Instant {
    var lastDay := DateFromDay(DayOf(DateUtc(year, month + 1, 0)));
    DateUtc(year, month, Min(day, lastDay))
  }

  function Trunc(x: real): int { if x >= 0.0 then x.Floor else -((-x).Floor) }

  /** The anchor a deployer set, clamped to a day of the month; the first when unset. */
  function AnchorDay(anchor: Option<real>): (day: int)
    ensures 1 <= day <= 31
  {
    match anchor
    case None => 1
    case Some(x) => Min(Max(Trunc(x), ANCHOR_MIN_DAY), ANCHOR_MAX_DAY)
  }

  /** Which day that is: the one set, a fraction dropped, no earlier than the 1st and no later than the 31st. */
  lemma AnchorDayIs(x: real, n: int)
    requires if x >= 0.0 then n as real <= x < n as real + 1.0 else n as real - 1.0 < x <= n as real
    ensures AnchorDay(Some(x)) == if n < 1 then 1 else if n > 31 then 31 else n
    ensures AnchorDay(None) == 1
  {
    if x >= 0.0 {
      assert x.Floor == n;
    } else {
      assert (-x).Floor == -n;
    }
  }

  function AnchoredWindowStart(anchor: Option<real>, now: Instant): Instant {
    var year, month := UtcYear(now), UtcMonth(now);
    match anchor
    case None => DateUtc(year, month, 1)
    case Some(_) =>
      var day := AnchorDay(anchor);
      var thisMonth := OccurrenceInMonth(year, month, day);
      if thisMonth <= now then thisMonth else OccurrenceInMonth(year, month - 1, day)
  }

  function WindowStart(anchor: Option<real>, now: Instant, since: Option<Instant>): Instant {
    var natural := AnchoredWindowStart(anchor, now);
    if since.Some? && since.value > natural then since.value else natural
  }

  datatype Window = Window(start: Instant, end: Instant)

  function ContainerHoursWindow(anchor: Option<real>, now: Instant, since: Option<Instant>): Window {
    Window(WindowStart(anchor, now, since),
           AnchoredWindowStart(anchor, AnchoredWindowStart(anchor, now) + MONTH_STRIDE_DAYS * DAY_MS))
  }

  function PreviousWindowStart(anchor: Option<real>, now: Instant, since: Option<Instant>): Instant {
    var start := WindowStart(anchor, now, since);
    var previous := WindowStart(anchor, AnchoredWindowStart(anchor, now) - 1, since);
    if previous < start then previous else start
  }

  // ----------------------------------------------------------- the reference

  /** The day on which month `k` opens its window: the anchor day, or the month's last day where it is shorter. */
  function OpeningDay(day: int, k: int): int { MonthStart(k) + Min(day, MonthLength(k)) - 1 }

  function Opening(day: int, k: int): Instant { OpeningDay(day, k) * DAY_MS }

  /** A window opens at midnight: that many days of 24 hours from the epoch. */
  lemma OpensAtMidnight(day: int, k: int)
    ensures Opening(day, k) == (MonthStart(k) + Min(day, MonthLength(k)) - 1) * (24 * 60 * 60 * 1000)
  {}

  /** The month whose window holds `now`. */
  function WindowMonth(day: int, now: Instant): int {
    var k := MonthOf(DayOf(now));
    if Opening(day, k) <= now then k else k - 1
  }

  /** Windows run from 28 to 31 days. */
  lemma OpeningGap(day: int, k: int)
    requires 1 <= day <= 31
    ensures Opening(day, k) + 28 * DAY_MS <= Opening(day, k + 1) <= Opening(day, k) + 31 * DAY_MS
  {
    hide MonthStart;
    MonthLengths(k);
    MonthLengths(k + 1);
  }

  lemma {:induction false} LaterOpening(day: int, j: int, k: int)
    requires 1 <= day <= 31 && j < k
    ensures Opening(day, j + 1) <= Opening(day, k)
    decreases k - j
  {
    hide Opening;
    if j + 1 < k {
      OpeningGap(day, k - 1);
      LaterOpening(day, j, k - 1);
    }
  }

  /** Every instant lies in the window of its month. */
  lemma WindowHolds(day: int, now: Instant)
    requires 1 <= day <= 31
    ensures var k := WindowMonth(day, now); Opening(day, k) <= now < Opening(day, k + 1)
  {
    hide MonthStart, MonthOf, Opening, DayOf, DayFromYear, YearFromDay, DateFromDay;
    var k := MonthOf(DayOf(now));
    MonthHolds(DayOf(now));
    MonthLengths(k - 1);
    MonthLengths(k);
    MonthLengths(k + 1);
    OpenBy(day, k - 1, now);
    OpenBy(day, k, now);
    OpenBy(day, k + 1, now);
  }

  lemma OpenBy(day: int, k: int, now: Instant)
    ensures Opening(day, k) <= now <==> OpeningDay(day, k) <= DayOf(now)
  {
    hide OpeningDay;
    assert DayOf(now) * DAY_MS <= now < (DayOf(now) + 1) * DAY_MS;
  }

  /** ... and in no other. */
  lemma WindowUnique(day: int, now: Instant, k: int)
    requires 1 <= day <= 31
    ensures Opening(day, k) <= now < Opening(day, k + 1) <==> WindowMonth(day, now) == k
  {
    hide Opening, WindowMonth;
    WindowHolds(day, now);
    var m := WindowMonth(day, now);
    if m < k { LaterOpening(day, m, k); }
    if k < m { LaterOpening(day, k, m); }
  }

  // ------------------------------------------------ the code and the reference

  /** The instant is in a year that `Date.UTC` misreads. */
  predicate Misread(t: Instant) { 0 <= UtcYear(t) <= 99 }

  lemma LastDay(year: int, month: int)
    ensures DateFromDay(DayOf(DateUtc(year, month + 1, 0))) == MonthLength(12 * UtcYearArgument(year) + month)
  {
    hide MonthStart, MonthOf, DateFromDay, DayFromYear, YearFromDay;
    var k := 12 * UtcYearArgument(year) + month;
    var d := MonthStart(k + 1) - 1;
    assert DateUtc(year, month + 1, 0) == d * DAY_MS;
    MonthLengths(k);
    MonthUnique(d, k);
    MonthHolds(d);
  }

  lemma OccurrenceIs(year: int, month: int, day: int)
    ensures OccurrenceInMonth(year, month, day) == Opening(day, 12 * UtcYearArgument(year) + month)
  {
    hide MonthStart, DateFromDay;
    LastDay(year, month);
  }

  /** Away from misread years the code finds the reference window's start. */
  lemma StartIs(anchor: Option<real>, now: Instant)
    ensures var day := AnchorDay(anchor);
            !Misread(now) ==> AnchoredWindowStart(anchor, now) == Opening(day, WindowMonth(day, now))
  {
    hide DayFromYear, YearFromDay, MonthStart, OccurrenceInMonth;
    var year, month, day := UtcYear(now), UtcMonth(now), AnchorDay(anchor);
    MonthHolds(DayOf(now));
    MonthLengths(MonthOf(DayOf(now)));
    OccurrenceIs(year, month, day);
    OccurrenceIs(year, month - 1, day);
  }

  /** In every year the code lands on a window of the month it reads, or of the month before it. */
  lemma StartShape(anchor: Option<real>, now: Instant)
    ensures var day, k := AnchorDay(anchor), 12 * UtcYearArgument(UtcYear(now)) + UtcMonth(now);
            || AnchoredWindowStart(anchor, now) == Opening(day, k)
            || AnchoredWindowStart(anchor, now) == Opening(day, k - 1)
  {
    hide DayFromYear, YearFromDay, MonthStart, OccurrenceInMonth;
    var year, month, day := UtcYear(now), UtcMonth(now), AnchorDay(anchor);
    MonthLengths(12 * UtcYearArgument(year) + month);
    OccurrenceIs(year, month, day);
    OccurrenceIs(year, month - 1, day);
  }

  lemma OpeningYear(day: int, k: int)
    requires 1 <= day <= 31
    ensures UtcYear(Opening(day, k)) == k / 12
  {
    hide MonthStart, MonthOf, YearFromDay;
    MonthLengths(k);
    MonthUnique(OpeningDay(day, k), k);
    MonthHolds(OpeningDay(day, k));
    assert DayOf(Opening(day, k)) == OpeningDay(day, k);
  }

  /** In a misread year the start it gives opens a window some nineteen hundred years on. */
  lemma MisreadFar(anchor: Option<real>, now: Instant) returns (m: int)
    requires Misread(now)
    ensures AnchoredWindowStart(anchor, now) == Opening(AnchorDay(anchor), m)
    ensures m > WindowMonth(AnchorDay(anchor), now) + 1 && m > 1200
  {
    hide AnchoredWindowStart, Opening, YearFromDay, MonthFromDay;
    var far := MonthOf(DayOf(now)) + 22_800;
    assert far == 12 * UtcYearArgument(UtcYear(now)) + UtcMonth(now);
    StartShape(anchor, now);
    m := if AnchoredWindowStart(anchor, now) == Opening(AnchorDay(anchor), far) then far else far - 1;
  }

  /** ... so it is still to come. */
  lemma StartMisread(anchor: Option<real>, now: Instant)
    requires Misread(now)
    ensures AnchoredWindowStart(anchor, now) > now
  {
    hide AnchoredWindowStart, Opening, WindowMonth, Misread;
    var day := AnchorDay(anchor);
    var m := MisreadFar(anchor, now);
    WindowHolds(day, now);
    LaterOpening(day, WindowMonth(day, now), m);
  }

  lemma StartExact(anchor: Option<real>, now: Instant)
    ensures AnchoredWindowStart(anchor, now) <= now <==> !Misread(now)
    ensures AnchoredWindowStart(anchor, now) == Opening(AnchorDay(anchor), WindowMonth(AnchorDay(anchor), now))
            <==> !Misread(now)
  {
    hide AnchoredWindowStart, Opening, WindowMonth, Misread;
    WindowHolds(AnchorDay(anchor), now);
    if Misread(now) { StartMisread(anchor, now); } else { StartIs(anchor, now); }
  }

  /**
  The window the code gives is the reference window exactly when neither `now` nor the instant it looks
  ahead to falls in a year `Date.UTC` misreads; the look-ahead may land in the next month or the one after.
  */
  lemma WindowExact(anchor: Option<real>, now: Instant)
    ensures var day, k := AnchorDay(anchor), WindowMonth(AnchorDay(anchor), now);
            ContainerHoursWindow(anchor, now, None) == Window(Opening(day, k), Opening(day, k + 1))
            <==> !Misread(now) && !Misread(Opening(day, k) + MONTH_STRIDE_DAYS * DAY_MS)
  {
    hide AnchoredWindowStart, Opening, WindowMonth, Misread;
    var day, k := AnchorDay(anchor), WindowMonth(AnchorDay(anchor), now);
    var ahead := Opening(day, k) + MONTH_STRIDE_DAYS * DAY_MS;
    StartExact(anchor, now);
    StartExact(anchor, ahead);
    OpeningGap(day, k);
    OpeningGap(day, k + 1);
    WindowUnique(day, ahead, k + 1);
  }

  /** No window touches a misread year from the first of January of year 100 on. */
  lemma {:induction false} ReadRight(t: Instant)
    requires 100 <= UtcYear(t)
    ensures !Misread(t)
    ensures forall later: Instant :: t <= later ==> 100 <= UtcYear(later)
  {
    forall later: Instant | t <= later ensures 100 <= UtcYear(later) {
      YearsRise(DayOf(t), DayOf(later));
    }
  }

  lemma YearsRise(d: int, e: int)
    requires d <= e
    ensures YearFromDay(d) <= YearFromDay(e)
  {
    hide DayFromYear, YearFromDay;
    var y, z := YearFromDay(d), YearFromDay(e);
    if z < y { LaterYear(z + 1, y); }
  }

  lemma {:induction false} LaterYear(y: int, z: int)
    requires y <= z
    ensures DayFromYear(y) <= DayFromYear(z)
    decreases z - y
  {
    if y < z {
      YearLength(z - 1);
      hide DayFromYear;
      LaterYear(y, z - 1);
    }
  }

  // ------------------------------------------------------------- the promises

  /** Neither `now` nor the instant the code looks ahead to is misread. */
  predicate Clear(anchor: Option<real>, now: Instant) {
    var day := AnchorDay(anchor);
    !Misread(now) && !Misread(Opening(day, WindowMonth(day, now)) + MONTH_STRIDE_DAYS * DAY_MS)
  }

  /**
  Windows tile time: an instant lies in its window, the instants that share that window are exactly those
  between its bounds, and the window at its end opens there.
  */
  lemma WindowsTile(anchor: Option<real>, now: Instant, t: Instant)
    ensures var w := ContainerHoursWindow(anchor, now, None);
            Clear(anchor, now) && !Misread(t) ==>
            && w.start <= now < w.end
            && (w.start <= t < w.end <==> ContainerHoursWindow(anchor, t, None) == w)
            && ContainerHoursWindow(anchor, w.end, None).start == w.end
  {
    hide AnchoredWindowStart, Opening, WindowMonth, Misread;
    var day := AnchorDay(anchor);
    var k, j := WindowMonth(day, now), WindowMonth(day, t);
    WindowHolds(day, now);
    WindowHolds(day, t);
    WindowExact(anchor, now);
    WindowExact(anchor, t);
    StartExact(anchor, t);
    WindowUnique(day, t, k);
    OpeningGap(day, j);
    OpeningGap(day, k);
    OpeningGap(day, k + 1);
    WindowUnique(day, Opening(day, j), j);
    WindowUnique(day, Opening(day, k), k);
    WindowUnique(day, Opening(day, k + 1), k + 1);
    StartExact(anchor, Opening(day, k + 1));
    ClearBetween(anchor, now, Opening(day, k + 1));
  }

  lemma ClearWindow(anchor: Option<real>, now: Instant)
    ensures var day, k := AnchorDay(anchor), WindowMonth(AnchorDay(anchor), now);
            Clear(anchor, now) ==>
            && Opening(day, k) <= now < Opening(day, k + 1)
            && ContainerHoursWindow(anchor, now, None) == Window(Opening(day, k), Opening(day, k + 1))
            && AnchoredWindowStart(anchor, now) == Opening(day, k)
  {
    hide AnchoredWindowStart, Opening, WindowMonth, Misread, ContainerHoursWindow;
    WindowHolds(AnchorDay(anchor), now);
    WindowExact(anchor, now);
    StartExact(anchor, now);
  }

  /** Where both are read rightly, so is every instant between them. */
  lemma ClearBetween(anchor: Option<real>, now: Instant, t: Instant)
    ensures var day := AnchorDay(anchor);
            Clear(anchor, now) && now <= t <= Opening(day, WindowMonth(day, now)) + MONTH_STRIDE_DAYS * DAY_MS ==>
              !Misread(t)
  {
    hide Opening, WindowMonth, DayFromYear, YearFromDay;
    var day := AnchorDay(anchor);
    var ahead := Opening(day, WindowMonth(day, now)) + MONTH_STRIDE_DAYS * DAY_MS;
    WindowHolds(day, now);
    HundredYears();
    if now <= t <= ahead {
      YearsRise(DayOf(now), DayOf(t));
      YearsRise(DayOf(t), DayOf(ahead));
      if UtcYear(now) < 0 { LaterYear(UtcYear(now) + 1, 0); }
      if UtcYear(ahead) >= 100 { LaterYear(100, UtcYear(ahead)); }
    }
  }

  lemma HundredYears()
    ensures DayFromYear(0) + 100 < DayFromYear(100)
  {}

  /** From a window to its end, `n` times over. */
  function EndAfter(anchor: Option<real>, now: Instant, n: nat): Instant {
    if n == 0 then AnchoredWindowStart(anchor, now)
    else ContainerHoursWindow(anchor, EndAfter(anchor, now, n - 1), None).end
  }

  /** `now` and the `n` windows from its own on are all read rightly. */
  predicate ClearFor(anchor: Option<real>, now: Instant, n: nat) {
    var day := AnchorDay(anchor);
    var k := WindowMonth(day, now);
    !Misread(now) && forall m :: k <= m < k + n ==> Clear(anchor, Opening(day, m))
  }

  lemma ClearForOneLess(anchor: Option<real>, now: Instant, n: nat)
    requires n > 0
    ensures var day := AnchorDay(anchor);
      ClearFor(anchor, now, n) <==>
        ClearFor(anchor, now, n - 1) && Clear(anchor, Opening(day, WindowMonth(day, now) + n - 1))
  {
    hide Clear, Opening, WindowMonth, Misread;
  }

  lemma OpensItself(day: int, k: int)
    requires 1 <= day <= 31
    ensures WindowMonth(day, Opening(day, k)) == k
  {
    hide Opening, WindowMonth;
    OpeningGap(day, k);
    WindowUnique(day, Opening(day, k), k);
  }

  lemma LateOpeningClear(anchor: Option<real>, m: int)
    requires m >= 1200
    ensures Clear(anchor, Opening(AnchorDay(anchor), m))
  {
    hide Opening, WindowMonth, UtcYear;
    var day := AnchorDay(anchor);
    OpeningYear(day, m);
    OpensItself(day, m);
    ReadRight(Opening(day, m));
  }

  /** One step from a window's opening: the next opening where that is read rightly, and one far ahead where not. */
  lemma EndOf(anchor: Option<real>, k: int) returns (m: int)
    ensures var day := AnchorDay(anchor);
      && ContainerHoursWindow(anchor, Opening(day, k), None).end == Opening(day, m)
      && (if Clear(anchor, Opening(day, k)) then m == k + 1 else m > k + 1 && m >= 1200)
  {
    hide Opening, WindowMonth, AnchoredWindowStart, Misread;
    var day := AnchorDay(anchor);
    var at := Opening(day, k);
    var ahead := at + MONTH_STRIDE_DAYS * DAY_MS;
    OpensItself(day, k);
    OpeningGap(day, k);
    OpeningGap(day, k + 1);
    WindowUnique(day, ahead, k + 1);
    if Clear(anchor, at) {
      ClearWindow(anchor, at);
      m := k + 1;
    } else if Misread(at) {
      m := MisreadFar(anchor, at);
      LateOpeningClear(anchor, m);
      OpensItself(day, m);
      ClearWindow(anchor, Opening(day, m));
      m := m + 1;
    } else {
      StartExact(anchor, at);
      m := MisreadFar(anchor, ahead);
    }
  }

  lemma {:induction false} EndsAt(anchor: Option<real>, now: Instant, n: nat) returns (m: int)
    ensures var day := AnchorDay(anchor);
      && EndAfter(anchor, now, n) == Opening(day, m)
      && (if ClearFor(anchor, now, n) then m == WindowMonth(day, now) + n
          else m > WindowMonth(day, now) + n && m >= 1200)
  {
    var day := AnchorDay(anchor);
    if n == 0 {
      hide AnchoredWindowStart, Opening, WindowMonth, Misread;
      if Misread(now) { m := MisreadFar(anchor, now); } else { m := WindowMonth(day, now); StartExact(anchor, now); }
    } else {
      hide AnchoredWindowStart, Opening, WindowMonth, Misread, ContainerHoursWindow, Clear;
      m := EndsAt(anchor, now, n - 1);
      ClearForOneLess(anchor, now, n);
      hide ClearFor;
      if m >= 1200 { LateOpeningClear(anchor, m); }
      m := EndOf(anchor, m);
    }
  }

  /**
  A clamp never drifts: the n-th end is the anchor day of the n-th following month, or its last day, if and only if
  `now` and the windows on the way are read rightly.
  */
  lemma NoDrift(anchor: Option<real>, now: Instant, n: nat)
    ensures var day := AnchorDay(anchor);
            EndAfter(anchor, now, n) == Opening(day, WindowMonth(day, now) + n) <==> ClearFor(anchor, now, n)
  {
    hide Opening, WindowMonth, ClearFor, EndAfter;
    var day := AnchorDay(anchor);
    var m := EndsAt(anchor, now, n);
    var k := WindowMonth(day, now) + n;
    if k < m {
      OpeningGap(day, k);
      LaterOpening(day, k, m);
    }
  }

  /**
  The windows of a deployer's own day: anchored on the `day`-th they run from that day, or the month's last where it is
  shorter, to the same of the next month, and `n` of them on still do, exactly where `Date.UTC` reads rightly. The month
  is the one whose opening is the last at or before `now`.
  */
  lemma WindowOfDay(day: int, now: Instant, k: int, n: nat)
    requires 1 <= day <= 31
    ensures var anchor := Some(day as real);
      var w := ContainerHoursWindow(anchor, now, None);
      Opening(day, k) <= now < Opening(day, k + 1) ==>
        && (w == Window(Opening(day, k), Opening(day, k + 1)) <==>
              !Misread(now) && !Misread(Opening(day, k) + 32 * 86_400_000))
        && (EndAfter(anchor, now, n) == Opening(day, k + n) <==> ClearFor(anchor, now, n))
  {
    hide AnchoredWindowStart, Opening, WindowMonth, Misread, EndAfter, ClearFor, ContainerHoursWindow, AnchorDay;
    AnchorDayIs(day as real, day);
    WindowUnique(day, now, k);
    WindowExact(Some(day as real), now);
    NoDrift(Some(day as real), now, n);
  }

  /** From year 100 on they always are. */
  lemma ClearFromYear100(anchor: Option<real>, now: Instant, n: nat)
    ensures WindowMonth(AnchorDay(anchor), now) >= 1200 ==> ClearFor(anchor, now, n)
  {
    hide Opening, WindowMonth, UtcYear, Clear;
    var day := AnchorDay(anchor);
    var k := WindowMonth(day, now);
    if k >= 1200 {
      forall m | k <= m < k + n ensures Clear(anchor, Opening(day, m)) { LateOpeningClear(anchor, m); }
      WindowHolds(day, now);
      OpeningYear(day, k);
      ReadRight(Opening(day, k));
    }
  }

  lemma PreviousOf(anchor: Option<real>, now: Instant)
    ensures var day, k := AnchorDay(anchor), WindowMonth(AnchorDay(anchor), now);
      Clear(anchor, now) ==> PreviousWindowStart(anchor, Opening(day, k + 1), None) == Opening(day, k)
  {
    hide AnchoredWindowStart, Opening, WindowMonth, Misread, Clear;
    var day, k := AnchorDay(anchor), WindowMonth(AnchorDay(anchor), now);
    var end := Opening(day, k + 1);
    ClearWindow(anchor, now);
    OpeningGap(day, k);
    ClearBetween(anchor, now, end);
    ClearBetween(anchor, now, end - 1);
    OpensItself(day, k + 1);
    WindowUnique(day, end - 1, k);
    StartExact(anchor, end);
    StartExact(anchor, end - 1);
  }

  /**
  The previous window of the one a window ends in is that window, unless the code reads `now` rightly and misreads the
  instant it looks ahead to.
  */
  lemma PreviousInverts(anchor: Option<real>, now: Instant)
    ensures var w := ContainerHoursWindow(anchor, now, None);
      PreviousWindowStart(anchor, w.end, None) == w.start <==> Clear(anchor, now) || Misread(now)
  {
    hide AnchoredWindowStart, Opening, WindowMonth, Misread, PreviousWindowStart;
    var day, k := AnchorDay(anchor), WindowMonth(AnchorDay(anchor), now);
    if Clear(anchor, now) {
      ClearWindow(anchor, now);
      PreviousOf(anchor, now);
    } else if Misread(now) {
      var m := MisreadFar(anchor, now);
      LateWindow(anchor, m);
    } else {
      var ahead := Opening(day, k) + MONTH_STRIDE_DAYS * DAY_MS;
      StartExact(anchor, now);
      var m := MisreadFar(anchor, ahead);
      OpeningGap(day, k);
      OpeningGap(day, k + 1);
      WindowUnique(day, ahead, k + 1);
      LateWindow(anchor, m - 1);
      LaterOpening(day, k, m - 1);
    }
  }

  lemma LateWindow(anchor: Option<real>, m: int)
    requires m >= 1200
    ensures var day := AnchorDay(anchor);
      && ContainerHoursWindow(anchor, Opening(day, m), None) == Window(Opening(day, m), Opening(day, m + 1))
      && AnchoredWindowStart(anchor, Opening(day, m)) == Opening(day, m)
      && PreviousWindowStart(anchor, Opening(day, m + 1), None) == Opening(day, m)
  {
    hide AnchoredWindowStart, Opening, WindowMonth, Clear, PreviousWindowStart, ContainerHoursWindow;
    var at := Opening(AnchorDay(anchor), m);
    LateOpeningClear(anchor, m);
    OpensItself(AnchorDay(anchor), m);
    ClearWindow(anchor, at);
    PreviousOf(anchor, at);
  }

  /**
  `since` holds a start back and moves no end: the window and the one before it open at the later of
  `since` and their own opening, so neither counts from before `since`.
  */
  lemma SinceHoldsBack(anchor: Option<real>, now: Instant, since: Instant)
    ensures var (w, own) := (ContainerHoursWindow(anchor, now, Some(since)), ContainerHoursWindow(anchor, now, None));
            w.end == own.end && w.start == Max(own.start, since)
    ensures var before := AnchoredWindowStart(anchor, AnchoredWindowStart(anchor, now) - 1);
            PreviousWindowStart(anchor, now, Some(since))
            == Min(Max(before, since), WindowStart(anchor, now, Some(since)))
    ensures since <= PreviousWindowStart(anchor, now, Some(since))
    ensures PreviousWindowStart(anchor, now, Some(since)) <= ContainerHoursWindow(anchor, now, Some(since)).start
  {
    hide AnchoredWindowStart;
  }

  /** So on 1 June of the year 50, whatever the anchor, the window containing now has yet to open. */
  lemma MisreadExample(anchor: Option<real>)
    ensures var now := -701_114 * DAY_MS;
            UtcYear(now) == 50 && ContainerHoursWindow(anchor, now, None).start > now
  {
    var d := -701_114;
    assert DayFromYear(50) == -701_265 && DayFromYear(51) == -700_900;
    hide DayFromYear, YearFromDay, AnchoredWindowStart;
    if YearFromDay(d) < 50 { LaterYear(YearFromDay(d) + 1, 50); }
    if YearFromDay(d) > 50 { LaterYear(51, YearFromDay(d)); }
    StartMisread(anchor, d * DAY_MS);
  }
}
