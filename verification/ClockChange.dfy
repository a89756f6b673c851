/** Which changes of the clock the schedule search comes through without missing a minute. */
module ClockChange {
  import opened Basics
  import opened Schedule

  // ---- a single change ----

  /** The clock at `y` when it changes once: at `g`, from `a` to `b` minutes ahead of UTC. */
  function Off(g: int, a: int, b: int, y: int): int {
    if y < g then a else b
  }

  function Landing(g: int, a: int, b: int, w: int): int {
    w - Off(g, a, b, w - Off(g, a, b, w))
  }

  predicate Mild(a: int, b: int) {
    -DAY < a < DAY && -DAY < b < DAY && a - DAY <= b <= a + DAY
  }

  predicate FullHour(w: int) {
    w % HOUR == 0
  }

  function NextMidnight(w: int): int {
    (DayOf(w) + 1) * DAY
  }

  /** Clocks put forward must be so on the hour. If they then show no full hour, the start of the hour
      they show, read as UTC, must come before the change, and so must a midnight they leap over.
      Clocks put back must not come back over a midnight, nor over the start of an hour, except that of
      hours that start, read as UTC, before a change on the hour. */
  predicate Safe(g: int, a: int, b: int) {
    if a < b then
      && FullHour(g + a)
      && (FullHour(g + b) || HourStart(g + b) < g)
      && (NextMidnight(g + a) >= g + b || NextMidnight(g + a) < g)
    else if b < a then
      && (HourStart(g + a - 1) <= g + b || (HourStart(g + a - 1) < g && FullHour(g + a)))
      && DayOf(g + a - 1) * DAY <= g + b
    else true
  }

  // Arithmetic of hours and days.

  lemma HourFacts(w: int)
    ensures HourStart(w) % HOUR == 0 && HourStart(w) <= w < HourStart(w) + HOUR
  {
  }

  lemma InHour(w: int, h: int)
    requires h % HOUR == 0 && h <= w < h + HOUR
    ensures HourStart(w) == h
  {
  }

  lemma NextHour(h: int, k: int)
    requires h % HOUR == 0 && k % HOUR == 0 && h < k
    ensures h + HOUR <= k
  {
  }

  lemma DayFacts(w: int)
    ensures DayOf(w) * DAY <= w < DayOf(w) * DAY + DAY
  {
  }

  lemma NextDay(d: int, e: int)
    ensures d * DAY < e * DAY ==> d * DAY + DAY <= e * DAY
  {
  }

  /** Changes by an hour and on the hour, forward or back, are safe wherever on earth they are made. */
  lemma HourOnTheHourIsSafe(g: int, a: int, b: int)
    requires FullHour(g + a) && (b == a + HOUR || b == a - HOUR)
    ensures Safe(g, a, b)
  {
    if a < b {
      SpringIsSafe(g, a, b);
    } else {
      FallIsSafe(g, a, b);
    }
  }

  lemma SpringIsSafe(g: int, a: int, b: int)
    requires FullHour(g + a) && b == a + HOUR
    ensures Safe(g, a, b)
  {
    FullHourLater(g + a);
    NoMidnightWithin(g + a);
    hide HourStart, DayOf, FullHour;
    assert g + b == g + a + HOUR;
  }

  lemma FullHourLater(h: int)
    ensures FullHour(h) <==> FullHour(h + HOUR)
  {
  }

  lemma FallIsSafe(g: int, a: int, b: int)
    requires FullHour(g + a) && b == a - HOUR
    ensures Safe(g, a, b)
  {
    FullHourLater(g + b);
    NoMidnightWithin(g + b);
    InHour(g + a - 1, g + b);
    hide HourStart, DayOf, FullHour;
  }

  /** Between two full hours there is no midnight. */
  lemma NoMidnightWithin(h: int)
    requires h % HOUR == 0
    ensures NextMidnight(h) >= h + HOUR && DayOf(h + HOUR - 1) * DAY <= h
  {
    hide DayOf;
    DayFacts(h);
    MidnightOnTheHour(DayOf(h) + 1);
    NextHour(h, NextMidnight(h));
    var m := DayOf(h + HOUR - 1);
    DayFacts(h + HOUR - 1);
    MidnightOnTheHour(m);
    if m * DAY > h {
      NextHour(h, m * DAY);
      assert false;
    }
  }

  lemma MidnightOnTheHour(d: int)
    ensures d * DAY % HOUR == 0
  {
    assert d * DAY == d * 24 * HOUR;
  }

  // What a safe change spares.

  lemma DaysAscend(g: int, a: int, b: int, t: int, u: int)
    requires Safe(g, a, b) && t <= u
    ensures DayOf(t + Off(g, a, b, t)) <= DayOf(u + Off(g, a, b, u))
  {
    if t < g <= u && b < a {
      DayAtLeast(u + b, DayOf(g + a - 1));
    }
  }

  /** A jump to midnight passes nothing behind it, but what comes again once clocks are put back. */
  lemma MidnightPasses(g: int, a: int, b: int, d: int, u: int)
    requires Mild(a, b) && Safe(g, a, b)
    requires u < Landing(g, a, b, d * DAY) && u + Off(g, a, b, u) >= d * DAY
    ensures b < a && u < g && u + a - b >= Landing(g, a, b, d * DAY) && u + a - b >= g
  {
    hide DayOf, HourStart;
    var r := d * DAY;
    DayFacts(g + a);
    NextDay(DayOf(g + a), d);
    NextDay(DayOf(g + a) + 1, d);
    NextDay(d, DayOf(g + a) + 1);
    DayFacts(g + a - 1);
    NextDay(DayOf(g + a - 1), d);
  }

  /** A jump to the end of an hour passes nothing but that hour. */
  lemma HourPasses(g: int, a: int, b: int, t: int, u: int)
    requires Safe(g, a, b)
    requires t <= u < Landing(g, a, b, HourStart(t + Off(g, a, b, t))) + HOUR
    ensures HourStart(u + Off(g, a, b, u)) == HourStart(t + Off(g, a, b, t))
  {
    hide HourStart, DayOf;
    var h := HourStart(t + Off(g, a, b, t));
    HourFacts(t + Off(g, a, b, t));
    if a < b {
      HourPassesForward(g, a, b, t, u, h);
    } else {
      HourPassesBack(g, a, b, t, u, h);
    }
    InHour(u + Off(g, a, b, u), h);
  }

  lemma HourPassesForward(g: int, a: int, b: int, t: int, u: int, h: int)
    requires a < b && Safe(g, a, b)
    requires h % HOUR == 0 && h <= t + Off(g, a, b, t) < h + HOUR && t <= u < Landing(g, a, b, h) + HOUR
    ensures h <= u + Off(g, a, b, u) < h + HOUR
  {
    hide HourStart, DayOf;
    if t < g {
      NextHour(h, g + a);
    } else {
      var k := HourStart(g + b);
      HourFacts(g + b);
      if h < k {
        NextHour(h, k);
        assert false;
      }
      if k < h {
        NextHour(k, h);
      }
      if k < g + a {
        NextHour(k, g + a);
        assert false;
      }
      if (g + b) % HOUR == 0 {
        InHour(g + b, g + b);
      }
    }
  }

  lemma HourPassesBack(g: int, a: int, b: int, t: int, u: int, h: int)
    requires b <= a && Safe(g, a, b)
    requires h % HOUR == 0 && h <= t + Off(g, a, b, t) < h + HOUR && t <= u < Landing(g, a, b, h) + HOUR
    ensures h <= u + Off(g, a, b, u) < h + HOUR
  {
    hide HourStart, DayOf;
    if t < g && b < a {
      var k := HourStart(g + a - 1);
      HourFacts(g + a - 1);
      if k < h {
        NextHour(k, h);
        assert false;
      }
      if h < k {
        NextHour(h, k);
      }
      if (g + a) % HOUR == 0 && k > g + b {
        NextHour(k, g + a);
      }
    }
  }

  // ---- zones whose changes lie apart ----

  const REACH := 4 * DAY

  /** Within four days of `x` the zone changes at most once: at `g`, from `a` to `b`. */
  ghost predicate Near(z: Zone, x: int, g: int, a: int, b: int) {
    Mild(a, b) && forall y {:trigger z.offset(y)} :: x - REACH <= y <= x + REACH ==> z.offset(y) == Off(g, a, b, y)
  }

  ghost predicate SafeAt(z: Zone, x: int) {
    exists g, a, b :: Near(z, x, g, a, b) && Safe(g, a, b)
  }

  /** Wherever one looks there is at most one change for days, and it is safe. */
  ghost predicate Gentle(z: Zone) {
    forall x :: SafeAt(z, x)
  }

  lemma OffsetBounded(z: Zone, t: int)
    requires Gentle(z)
    ensures -DAY < z.offset(t) < DAY
  {
    hide Safe;
    assert SafeAt(z, t);
  }

  lemma DaysAscendIn(z: Zone, t: int, u: int)
    requires Gentle(z) && t <= u
    ensures DayOf(Wall(z, t)) <= DayOf(Wall(z, u))
  {
    hide Safe, DayOf;
    assert SafeAt(z, t);
    var g, a, b :| Near(z, t, g, a, b) && Safe(g, a, b);
    if u <= t + REACH {
      DaysAscend(g, a, b, t, u);
    } else {
      OffsetBounded(z, u);
      DayFacts(Wall(z, t));
      DayAtLeast(Wall(z, u), DayOf(Wall(z, t)));
    }
  }

  lemma MidnightPassesIn(z: Zone, d: int, u: int)
    requires Gentle(z) && u < Date(z, d * DAY) && Wall(z, u) >= d * DAY
    ensures Again(z, u, Date(z, d * DAY))
  {
    hide Safe, DayOf;
    var r := d * DAY;
    assert SafeAt(z, r);
    var g, a, b :| Near(z, r, g, a, b) && Safe(g, a, b);
    assert Date(z, r) == Landing(g, a, b, r);
    OffsetBounded(z, u);
    MidnightPasses(g, a, b, d, u);
    assert Wall(z, u + a - b) == Wall(z, u);
  }

  lemma HourPassesIn(z: Zone, t: int, u: int)
    requires Gentle(z) && t <= u < HourEnd(z, t)
    ensures HourStart(Wall(z, u)) == HourStart(Wall(z, t))
  {
    hide Safe, DayOf;
    assert SafeAt(z, t);
    var g, a, b :| Near(z, t, g, a, b) && Safe(g, a, b);
    var w := Wall(z, t);
    HourFacts(w);
    assert Date(z, HourStart(w)) == Landing(g, a, b, HourStart(w));
    HourPasses(g, a, b, t, u);
  }

  /** A zone whose changes lie days apart and are safe is tight, so that Next misses nothing in it. */
  lemma GentleIsTight(z: Zone)
    requires Gentle(z)
    ensures Tight(z)
  {
    hide Gentle, Again, DayOf, HourStart, HourEnd, Date, Wall;
    forall t, u | t <= u ensures DayOf(Wall(z, t)) <= DayOf(Wall(z, u)) {
      DaysAscendIn(z, t, u);
    }
    forall d, u | u < Date(z, d * DAY) && Wall(z, u) >= d * DAY ensures Again(z, u, Date(z, d * DAY)) {
      MidnightPassesIn(z, d, u);
    }
    forall t, u | t <= u < HourEnd(z, t) ensures HourStart(Wall(z, u)) == HourStart(Wall(z, t)) {
      HourPassesIn(z, t, u);
    }
  }

  // ---- an unsafe change is missed by some schedule ----

  /** The two ways of not being safe: within hours, and over a midnight. */
  predicate BreaksHour(g: int, a: int, b: int) {
    if a < b then !FullHour(g + a) || (!FullHour(g + b) && HourStart(g + b) >= g)
    else b < a && HourStart(g + a - 1) > g + b && (HourStart(g + a - 1) >= g || !FullHour(g + a))
  }

  predicate BreaksDay(g: int, a: int, b: int) {
    if a < b then NextMidnight(g + a) < g + b && NextMidnight(g + a) >= g
    else b < a && DayOf(g + a - 1) * DAY > g + b
  }

  lemma UnsafeBreaks(g: int, a: int, b: int)
    ensures Safe(g, a, b) <==> !BreaksHour(g, a, b) && !BreaksDay(g, a, b)
  {
    hide FullHour, HourStart, DayOf;
  }

  lemma HoursApart(w: int, x: int)
    requires HourStart(w) < HourStart(x) <= HourStart(w) + 23 * HOUR
    ensures HourOf(w) != HourOf(x)
  {
    var k, n := w / HOUR, x / HOUR;
    assert HourStart(w) == k * HOUR && HourStart(x) == n * HOUR;
  }

  /** A jump from `t` to `j` passes `u`, behind the last change. */
  predicate Passed(g: int, t: int, j: int, u: int) {
    t < u < j && g <= u
  }

  predicate Slight(a: int, b: int) {
    -DAY < a < DAY && -DAY < b < DAY && a - DAY / 2 <= b <= a + DAY / 2
  }

  /** The jump to the end of the hour at `t` passes `u`, in an hour of another number. */
  predicate HourMiss(g: int, a: int, b: int, t: int, u: int) {
    var w, x := t + Off(g, a, b, t), u + Off(g, a, b, u);
    && Passed(g, t, Landing(g, a, b, HourStart(w)) + HOUR, u)
    && HourOf(w) != HourOf(x) && g - 1 <= t <= g
  }

  /** Forward from within an hour. */
  lemma MissedFromWithin(g: int, a: int, b: int)
    requires Slight(a, b) && a < b && (g + a) % HOUR != 0
    ensures HourMiss(g, a, b, g - 1, HourStart(g + a - 1) - a + HOUR - 1)
  {
    hide HourStart, HourOf;
    var h := HourStart(g + a - 1);
    var u := h - a + HOUR - 1;
    HourFacts(g + a - 1);
    assert h + HOUR > g + a;
    HourFacts(u + b);
    NextHour(h, HourStart(u + b));
    HoursApart(g + a - 1, u + b);
  }

  /** Forward into an hour whose start falls to the time before the change. */
  lemma MissedBehind(g: int, a: int, b: int)
    requires Slight(a, b) && a < b && (g + b) % HOUR != 0 && HourStart(g + b) >= g
    ensures HourMiss(g, a, b, g, HourStart(g + b) + HOUR - b)
  {
    hide HourStart, HourOf;
    HourFacts(g + b);
    InHour(HourStart(g + b) + HOUR, HourStart(g + b) + HOUR);
    HoursApart(g + b, HourStart(g + b) + HOUR);
  }

  /** Back over the start of an hour. */
  lemma MissedBack(g: int, a: int, b: int)
    requires Slight(a, b) && b < a && HourStart(g + a - 1) > g + b
    requires HourStart(g + a - 1) >= g || (g + a) % HOUR != 0
    ensures HourMiss(g, a, b, g - 1, g)
  {
    hide HourStart, HourOf;
    HourFacts(g + a - 1);
    HourFacts(g + b);
    assert (g + a) % HOUR != 0 ==> HourStart(g + a - 1) + HOUR > g + a;
    HoursApart(g + b, g + a - 1);
  }

  lemma HourMissed(g: int, a: int, b: int) returns (t: int, u: int)
    requires Slight(a, b) && BreaksHour(g, a, b)
    ensures HourMiss(g, a, b, t, u)
  {
    hide HourStart, HourMiss;
    if b < a {
      t, u := g - 1, g;
      MissedBack(g, a, b);
    } else if (g + a) % HOUR != 0 {
      t, u := g - 1, HourStart(g + a - 1) - a + HOUR - 1;
      MissedFromWithin(g, a, b);
    } else {
      t, u := g, HourStart(g + b) + HOUR - b;
      MissedBehind(g, a, b);
    }
  }

  /** Between days: the jump to the next midnight passes `u`, on another day. */
  lemma DayMissed(g: int, a: int, b: int) returns (t: int, u: int)
    requires Slight(a, b) && BreaksDay(g, a, b)
    ensures var w, x := t + Off(g, a, b, t), u + Off(g, a, b, u);
      && Passed(g, t, Landing(g, a, b, (DayOf(w) + 1) * DAY), u)
      && DayOf(w) != DayOf(x) && g - 1 <= t <= g
  {
    t, u := g - 1, g;
  }

  ghost predicate Changes(z: Zone, g: int, a: int, b: int) {
    forall y :: z.offset(y) == Off(g, a, b, y)
  }

  /** Years, months and days follow one another. */
  ghost predicate Calendar(f: Fields) {
    && (forall d :: d < f.nextMonth(d))
    && (forall d :: f.year(d) <= f.year(d + 1) <= f.year(d) + 1)
  }

  ghost predicate SameCalendar(f: Fields, cal: Fields) {
    f.nextMonth == cal.nextMonth && f.year == cal.year && f.endOf == cal.endOf
  }

  /** From `after` on, the search misses nothing. */
  ghost predicate MissesNone(z: Zone, f: Fields, after: int) {
    Ends(z, f) ==> NoneMissed(z, f, after, Stop(z, f, after, after / MINUTE + 1))
  }

  /** The schedules that ask for one minute of the day, every day; or for every minute of one day. */
  function EveryDayAt(cal: Fields, w: int): Fields {
    cal.(month := _ => true, day := _ => true, hour := h => h == HourOf(w), minute := m => m == w % HOUR)
  }

  function AllDayOn(cal: Fields, d: int): Fields {
    cal.(month := _ => true, day := e => e == d, hour := _ => true, minute := _ => true)
  }

  lemma YearBegins(z: Zone, g: int, a: int, b: int, f: Fields, t: int)
    requires Changes(z, g, a, b) && Slight(a, b) && Calendar(f)
    ensures !OutOfYears(z, f, (t - 1) * MINUTE + 1, t)
  {
    assert ((t - 1) * MINUTE + 1) / MINUTE == t - 1;
    var w, x := Wall(z, t - 1), Wall(z, t);
    assert x <= w + 1 + DAY / 2;
    DayFacts(w);
    DayFacts(x);
    assert DayOf(x) <= DayOf(w) + 1;
    if DayOf(x) <= DayOf(w) {
      YearsAscend(f, DayOf(x), DayOf(w));
    } else {
      assert DayOf(x) == DayOf(w) + 1;
      assert f.year(DayOf(w) + 1) <= f.year(DayOf(w)) + 1;
    }
  }

  lemma {:induction false} YearsAscend(f: Fields, d: int, e: int)
    requires Calendar(f) && d <= e
    ensures f.year(d) <= f.year(e)
    decreases e - d
  {
    if d < e {
      YearsAscend(f, d, e - 1);
      assert f.year(e - 1) <= f.year(e - 1 + 1);
    }
  }

  /** A matching minute that the first jump passes behind the last change is missed. */
  lemma PassedIsMissed(z: Zone, g: int, a: int, b: int, f: Fields, t: int, u: int)
    requires Changes(z, g, a, b) && Slight(a, b) && Calendar(f) && Ends(z, f)
    requires !Matches(z, f, t) && Matches(z, f, u) && Passed(g, t, Jump(z, f, t), u)
    ensures !MissesNone(z, f, (t - 1) * MINUTE + 1)
  {
    hide Matches, Jump, OutOfYears, Stop, Ends;
    var after := (t - 1) * MINUTE + 1;
    assert after / MINUTE == t - 1 && after % MINUTE != 0;
    YearBegins(z, g, a, b, f, t);
    StopStep(z, f, after, t);
    StopLands(z, f, after, Forward(z, f, t));
    assert Fires(z, f, u, after) && after / MINUTE < u < Stop(z, f, after, t);
    forall v | v >= Stop(z, f, after, t) ensures Wall(z, v) != Wall(z, u) {
      assert z.offset(v) == b && z.offset(u) == b;
    }
  }

  /** A change is safe exactly if no schedule, on whatever calendar, misses a minute over it. */
  lemma SafeIff(z: Zone, g: int, a: int, b: int, cal: Fields)
    requires Changes(z, g, a, b) && Slight(a, b) && Calendar(cal) && Ends(z, cal)
    ensures Safe(g, a, b)
      <==> forall f, after {:trigger MissesNone(z, f, after)} :: SameCalendar(f, cal) && Months(f) ==> MissesNone(z, f, after)
  {
    hide Safe, MissesNone, Ends, Calendar;
    if Safe(g, a, b) {
      SafeMissesNone(z, g, a, b, cal);
    } else {
      var f, after := UnsafeMisses(z, g, a, b, cal);
    }
  }

  lemma SafeMissesNone(z: Zone, g: int, a: int, b: int, cal: Fields)
    requires Changes(z, g, a, b) && Slight(a, b) && Safe(g, a, b)
    ensures forall f, after {:trigger MissesNone(z, f, after)} :: Months(f) ==> MissesNone(z, f, after)
  {
    hide Safe, Stop, Ends, NoneMissed, Months;
    forall x ensures SafeAt(z, x) {
      assert Near(z, x, g, a, b);
    }
    GentleIsTight(z);
    forall f, after | Months(f) ensures MissesNone(z, f, after) {
      if Ends(z, f) {
        NoneMissedByStop(z, f, after);
      }
    }
  }

  lemma DayUnsafe(z: Zone, g: int, a: int, b: int, cal: Fields) returns (f: Fields, after: int)
    requires Changes(z, g, a, b) && Slight(a, b) && Calendar(cal) && Ends(z, cal) && BreaksDay(g, a, b)
    ensures SameCalendar(f, cal) && Months(f) && !MissesNone(z, f, after)
  {
    hide BreaksDay, HourStart, HourOf, DayOf;
    var t, u := DayMissed(g, a, b);
    f, after := AllDayOn(cal, DayOf(Wall(z, u))), (t - 1) * MINUTE + 1;
    assert Ends(z, f) && Calendar(f);
    var midnight := (DayOf(Wall(z, t)) + 1) * DAY;
    assert Jump(z, f, t) == Date(z, midnight) == Landing(g, a, b, midnight);
    hide MissesNone, Wall, Ends, Date, Jump;
    PassedIsMissed(z, g, a, b, f, t, u);
  }

  lemma HourUnsafe(z: Zone, g: int, a: int, b: int, cal: Fields) returns (f: Fields, after: int)
    requires Changes(z, g, a, b) && Slight(a, b) && Calendar(cal) && Ends(z, cal) && BreaksHour(g, a, b)
    ensures SameCalendar(f, cal) && Months(f) && !MissesNone(z, f, after)
  {
    hide BreaksHour, HourStart, HourOf, DayOf;
    var t, u := HourMissed(g, a, b);
    f, after := EveryDayAt(cal, Wall(z, u)), (t - 1) * MINUTE + 1;
    assert Ends(z, f) && Calendar(f);
    assert Jump(z, f, t) == HourEnd(z, t);
    assert HourEnd(z, t) == Landing(g, a, b, HourStart(Wall(z, t))) + HOUR;
    hide MissesNone, Wall, Ends, HourEnd, Jump;
    PassedIsMissed(z, g, a, b, f, t, u);
  }

  lemma UnsafeMisses(z: Zone, g: int, a: int, b: int, cal: Fields) returns (f: Fields, after: int)
    requires Changes(z, g, a, b) && Slight(a, b) && Calendar(cal) && Ends(z, cal) && !Safe(g, a, b)
    ensures SameCalendar(f, cal) && Months(f) && !MissesNone(z, f, after)
  {
    UnsafeBreaks(g, a, b);
    hide MissesNone, Ends, Months, Calendar, Changes, Safe, BreaksDay, BreaksHour, SameCalendar;
    if BreaksDay(g, a, b) {
      f, after := DayUnsafe(z, g, a, b, cal);
    } else {
      f, after := HourUnsafe(z, g, a, b, cal);
    }
  }

  // ---- a clock on which a minute is missed ----

  /** Lord Howe Island in October 2025: on the 5th, at 15:30 UTC of the 4th, the clock went from 02:00
      to 02:30. Minutes count from the beginning of 1970. */
  const FORWARD_AT := 29326530
  const LORD_HOWE := Zone(t => Off(FORWARD_AT, 630, 660, t))

  const FOURTH := 20365 * DAY
  const QUARTER_PAST_THREE := 3 * HOUR + 15

  /** 03:15 on the 4th, and on the 5th. */
  const LAST_RUN := FOURTH + QUARTER_PAST_THREE - 630
  const MISSED := FOURTH + DAY + QUARTER_PAST_THREE - 660

  lemma StillEnds(z: Zone, cal: Fields, w: int)
    requires Ends(z, cal)
    ensures Ends(z, EveryDayAt(cal, w))
  {
  }

  /** From the last run the search comes, hour by hour, to the change itself. */
  lemma {:induction false} ComesToTheChange(cal: Fields, t: int)
    requires Ends(LORD_HOWE, cal) && Calendar(cal)
    requires LAST_RUN < t <= FORWARD_AT && ((t + 630) % HOUR == 0 || t < LAST_RUN + 45)
    ensures var f := EveryDayAt(cal, QUARTER_PAST_THREE);
      Ends(LORD_HOWE, f)
      && Stop(LORD_HOWE, f, LAST_RUN * MINUTE, t) == Stop(LORD_HOWE, f, LAST_RUN * MINUTE, FORWARD_AT)
    decreases FORWARD_AT - t
  {
    hide Ends, Calendar, OutOfYears, Fires, Forward, EveryDayAt, LORD_HOWE;
    var f := EveryDayAt(cal, QUARTER_PAST_THREE);
    StillEnds(LORD_HOWE, cal, QUARTER_PAST_THREE);
    if t < FORWARD_AT {
      NotOutOfYears(cal, t);
      HourlySteps(cal, t);
      StopStep(LORD_HOWE, f, LAST_RUN * MINUTE, t);
      ComesToTheChange(cal, Forward(LORD_HOWE, f, t));
    }
  }

  lemma NotOutOfYears(cal: Fields, t: int)
    requires Calendar(cal) && LAST_RUN < t <= FORWARD_AT
    ensures !OutOfYears(LORD_HOWE, EveryDayAt(cal, QUARTER_PAST_THREE), LAST_RUN * MINUTE, t)
  {
    assert LAST_RUN * MINUTE / MINUTE == LAST_RUN;
    var w := Wall(LORD_HOWE, t);
    assert DayOf(Wall(LORD_HOWE, LAST_RUN)) == 20365;
    assert DayOf(w) == 20365 || DayOf(w) == 20365 + 1;
    assert cal.year(20365 + 1) <= cal.year(20365) + 1;
  }

  lemma HourlySteps(cal: Fields, t: int)
    requires LAST_RUN < t < FORWARD_AT && ((t + 630) % HOUR == 0 || t < LAST_RUN + 45)
    ensures var f := EveryDayAt(cal, QUARTER_PAST_THREE);
      var n := Forward(LORD_HOWE, f, t);
      && !Fires(LORD_HOWE, f, t, LAST_RUN * MINUTE)
      && t < n <= FORWARD_AT && ((n + 630) % HOUR == 0 || n < LAST_RUN + 45)
  {
    hide Forward, Fires, EveryDayAt, LORD_HOWE;
    if t < LAST_RUN + 45 {
      MinuteStep(cal, t);
    } else {
      HourStep(cal, t);
    }
  }

  /** An instant in another hour than the one asked for is left by its end. */
  lemma LeavesHour(z: Zone, cal: Fields, q: int, after: int, t: int)
    requires HourOf(Wall(z, t)) != HourOf(q)
    ensures var f := EveryDayAt(cal, q);
      !Fires(z, f, t, after) && (HourEnd(z, t) > t ==> Forward(z, f, t) == HourEnd(z, t))
  {
    hide Repeats, HourOf, HourEnd, Wall, DayOf;
  }

  /** In the hour asked for the search goes minute by minute. */
  lemma LeavesMinute(z: Zone, cal: Fields, q: int, after: int, t: int)
    requires HourOf(Wall(z, t)) == HourOf(q) && Wall(z, t) % HOUR != q % HOUR
    ensures var f := EveryDayAt(cal, q);
      !Fires(z, f, t, after) && Forward(z, f, t) == t + 1
  {
    hide Repeats, HourOf, HourEnd, Wall, DayOf;
  }

  lemma MinuteStep(cal: Fields, t: int)
    requires LAST_RUN < t < LAST_RUN + 45
    ensures var f := EveryDayAt(cal, QUARTER_PAST_THREE);
      !Fires(LORD_HOWE, f, t, LAST_RUN * MINUTE) && Forward(LORD_HOWE, f, t) == t + 1
    ensures t + 1 < LAST_RUN + 45 || (t + 1 + 630) % HOUR == 0
  {
    InTheHour(t);
    LeavesMinute(LORD_HOWE, cal, QUARTER_PAST_THREE, LAST_RUN * MINUTE, t);
  }

  lemma HourStep(cal: Fields, t: int)
    requires LAST_RUN + 45 <= t < FORWARD_AT && (t + 630) % HOUR == 0
    ensures var f := EveryDayAt(cal, QUARTER_PAST_THREE);
      !Fires(LORD_HOWE, f, t, LAST_RUN * MINUTE) && Forward(LORD_HOWE, f, t) == t + HOUR <= FORWARD_AT
    ensures (t + HOUR + 630) % HOUR == 0
  {
    hide Fires, EveryDayAt, Forward, HourOf, HourStart, LORD_HOWE, Wall, Date;
    OnTheHour(t);
    LeavesHour(LORD_HOWE, cal, QUARTER_PAST_THREE, LAST_RUN * MINUTE, t);
  }

  lemma InTheHour(t: int)
    requires LAST_RUN < t < LAST_RUN + 45
    ensures Wall(LORD_HOWE, t) == t + 630 && HourOf(t + 630) == 3 && (t + 630) % HOUR != 15
    ensures t + 1 < LAST_RUN + 45 || (t + 1 + 630) % HOUR == 0
  {
  }

  lemma OnTheHour(t: int)
    requires LAST_RUN + 45 <= t < FORWARD_AT && (t + 630) % HOUR == 0
    ensures Wall(LORD_HOWE, t) == t + 630 && HourStart(t + 630) == t + 630 && HourOf(t + 630) != 3 == HourOf(QUARTER_PAST_THREE)
    ensures Date(LORD_HOWE, t + 630) == t && t + HOUR <= FORWARD_AT
  {
  }

  /** The hour of the change is left for 03:30. */
  lemma ChangeIsLeft(cal: Fields)
    ensures var f := EveryDayAt(cal, QUARTER_PAST_THREE);
      && !Fires(LORD_HOWE, f, FORWARD_AT, LAST_RUN * MINUTE)
      && Forward(LORD_HOWE, f, FORWARD_AT) == FORWARD_AT + HOUR > MISSED
  {
    hide Repeats;
    var w := FORWARD_AT + 660;
    assert Wall(LORD_HOWE, FORWARD_AT) == w && HourOf(w) == 2 && HourStart(w) == w - 30;
    assert Date(LORD_HOWE, w - 30) == FORWARD_AT;
  }

  lemma MissedMatches(cal: Fields)
    ensures var f := EveryDayAt(cal, QUARTER_PAST_THREE);
      && LAST_RUN * MINUTE / MINUTE == LAST_RUN
      && Matches(LORD_HOWE, f, LAST_RUN) && Fires(LORD_HOWE, f, MISSED, LAST_RUN * MINUTE)
  {
    assert Wall(LORD_HOWE, MISSED) == FOURTH + DAY + QUARTER_PAST_THREE;
    assert Wall(LORD_HOWE, LAST_RUN) == FOURTH + QUARTER_PAST_THREE;
    assert LAST_RUN * MINUTE / MINUTE == LAST_RUN;
  }

  lemma LordHoweIsUnsafe()
    ensures !Safe(FORWARD_AT, 630, 660)
  {
  }

  /** The expression is `15 3 * * *`. After 03:15 on the 4th the search passes 03:15 on the 5th, which
      exists, matches, and never comes again. */
  lemma LordHoweMisses(cal: Fields)
    requires Ends(LORD_HOWE, cal) && Calendar(cal)
    ensures !Safe(FORWARD_AT, 630, 660)
    ensures var f, after := EveryDayAt(cal, QUARTER_PAST_THREE), LAST_RUN * MINUTE;
      && Matches(LORD_HOWE, f, LAST_RUN) && Fires(LORD_HOWE, f, MISSED, after)
      && Ends(LORD_HOWE, f) && !MissesNone(LORD_HOWE, f, after)
      && (NextOf(LORD_HOWE, f, after).Some? ==> NextOf(LORD_HOWE, f, after).value > MISSED * MINUTE > after)
  {
    var f, after := EveryDayAt(cal, QUARTER_PAST_THREE), LAST_RUN * MINUTE;
    assert forall v :: v > MISSED ==> Wall(LORD_HOWE, v) != Wall(LORD_HOWE, MISSED);
    assert LAST_RUN + 1 < LAST_RUN + 45;
    hide Stop, Ends, Calendar, Matches, Fires, OutOfYears, Forward, EveryDayAt, Wall, Safe;
    LordHoweIsUnsafe();
    MissedMatches(cal);
    ComesToTheChange(cal, LAST_RUN + 1);
    NotOutOfYears(cal, FORWARD_AT);
    ChangeIsLeft(cal);
    StopStep(LORD_HOWE, f, after, FORWARD_AT);
    StopLands(LORD_HOWE, f, after, FORWARD_AT + HOUR);
    assert LAST_RUN < MISSED < Stop(LORD_HOWE, f, after, LAST_RUN + 1);
  }
}
