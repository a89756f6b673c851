/** The search for the next run of a schedule (internal/cron/schedule.go), on the clock of any time
    zone. Instants and wall times are counted in minutes, `after` in nanoseconds. */
module Schedule {
  import opened Basics

  const MINUTE := 60_000_000_000
  const HOUR := 60
  const DAY := 1440
  const SEARCH_YEARS := 9

  // ---- the clock ----

  /** A time zone: what its clocks are ahead of UTC at an instant. */
  datatype Zone = Zone(offset: int -> int)

  function Wall(z: Zone, t: int): int {
    t + z.offset(t)
  }

  /** time.Date: the wall time is read as UTC to look an offset up, and the offset in force at the
      instant this gives is the one that counts. A wall time the clock skips or passes twice thus
      falls to one side of the change or the other. */
  function Date(z: Zone, w: int): int {
    w - z.offset(w - z.offset(w))
  }

  function DayOf(w: int): int {
    w / DAY
  }

  function HourOf(w: int): int {
    w / HOUR % 24
  }

  function HourStart(w: int): int {
    w - w % HOUR
  }

  /** The fields of a schedule, read off the wall clock, and the calendar: the first day of the next
      month, the year of a day, and a day by which a year is over. */
  datatype Fields = Fields(
    month: int -> bool, day: int -> bool, hour: int -> bool, minute: int -> bool,
    nextMonth: int -> int, year: int -> int, endOf: int -> int)

  /** Years end, and clocks are less than a day off. */
  ghost predicate Ends(z: Zone, f: Fields) {
    && (forall y, d {:trigger f.endOf(y), f.year(d)} :: d >= f.endOf(y) ==> f.year(d) > y)
    && (forall t :: -DAY < z.offset(t) < DAY)
  }

  predicate Matches(z: Zone, f: Fields, t: int) {
    var w := Wall(z, t);
    f.month(DayOf(w)) && f.day(DayOf(w)) && f.hour(HourOf(w)) && f.minute(w % HOUR)
  }

  /** The wall-clock minute of `after`, when that is the start of one. */
  predicate Repeats(z: Zone, t: int, after: int) {
    Wall(z, t) == Wall(z, after / MINUTE) && after % MINUTE == 0
  }

  predicate Fires(z: Zone, f: Fields, t: int, after: int) {
    Matches(z, f, t) && !Repeats(z, t, after)
  }

  // ---- the search ----

  function HourEnd(z: Zone, t: int): int {
    Date(z, HourStart(Wall(z, t))) + HOUR
  }

  /** Where the search goes from an instant that is not the answer. */
  function Jump(z: Zone, f: Fields, t: int): int {
    var w := Wall(z, t);
    if !f.month(DayOf(w)) then Date(z, f.nextMonth(DayOf(w)) * DAY)
    else if !f.day(DayOf(w)) then Date(z, (DayOf(w) + 1) * DAY)
    else if !f.hour(HourOf(w)) then HourEnd(z, t)
    else t + 1
  }

  function Forward(z: Zone, f: Fields, t: int): (u: int)
    ensures u > t
  {
    if Jump(z, f, t) > t then Jump(z, f, t) else t + 1
  }

  function YearAt(z: Zone, f: Fields, t: int): int {
    f.year(DayOf(Wall(z, t)))
  }

  predicate OutOfYears(z: Zone, f: Fields, after: int, t: int) {
    YearAt(z, f, t) > YearAt(z, f, after / MINUTE) + SEARCH_YEARS
  }

  /** An instant at which the nine years are certainly over. */
  function Horizon(z: Zone, f: Fields, after: int): int {
    (f.endOf(YearAt(z, f, after / MINUTE) + SEARCH_YEARS) + 1) * DAY
  }

  lemma YearsLeft(z: Zone, f: Fields, after: int, t: int)
    requires Ends(z, f) && !OutOfYears(z, f, after, t)
    ensures t < Horizon(z, f, after)
  {
    DayAtLeast(Wall(z, t), f.endOf(YearAt(z, f, after / MINUTE) + SEARCH_YEARS));
  }

  lemma DayAtLeast(w: int, d: int)
    ensures DayOf(w) >= d <==> w >= d * DAY
  {
  }

  /** Where the search from `t` on stops: at an instant that fires, or when the years are used up. */
  ghost function Stop(z: Zone, f: Fields, after: int, t: int): int
    requires Ends(z, f)
    decreases Horizon(z, f, after) - t
  {
    if OutOfYears(z, f, after, t) || Fires(z, f, t, after) then t
    else
      YearsLeft(z, f, after, t);
      Stop(z, f, after, Forward(z, f, t))
  }

  /** What Next answers, in nanoseconds. */
  ghost function NextOf(z: Zone, f: Fields, after: int): Option<int>
    requires Ends(z, f)
  {
    var n := Stop(z, f, after, after / MINUTE + 1);
    if OutOfYears(z, f, after, n) then None else Some(n * MINUTE)
  }

  /** Next, with its jumps and its forward-progress guard. */
  method Next(z: Zone, f: Fields, after: int) returns (r: Option<int>)
    requires Ends(z, f)
    ensures r == NextOf(z, f, after)
  {
    hide Stop, Ends, Horizon, Date;
    var t := after / MINUTE + 1;
    var cap := YearAt(z, f, after / MINUTE) + SEARCH_YEARS;
    while YearAt(z, f, t) <= cap
      invariant Stop(z, f, after, after / MINUTE + 1) == Stop(z, f, after, t)
      decreases Horizon(z, f, after) - t
    {
      YearsLeft(z, f, after, t);
      var start, w := t, Wall(z, t);
      if !f.month(DayOf(w)) {
        t := Date(z, f.nextMonth(DayOf(w)) * DAY);
      } else if !f.day(DayOf(w)) {
        t := Date(z, (DayOf(w) + 1) * DAY);
      } else if !f.hour(HourOf(w)) {
        t := Date(z, HourStart(w)) + HOUR;
      } else if !f.minute(w % HOUR) {
        t := t + 1;
      } else if Wall(z, t) == Wall(z, after / MINUTE) && after % MINUTE == 0 {
        t := t + 1;
      } else {
        StopHere(z, f, after, t);
        return Some(t * MINUTE);
      }
      if t <= start {
        t := start + 1;
      }
      StopStep(z, f, after, start);
    }
    StopHere(z, f, after, t);
    return None;
  }

  lemma StopHere(z: Zone, f: Fields, after: int, t: int)
    requires Ends(z, f) && (OutOfYears(z, f, after, t) || Fires(z, f, t, after))
    ensures Stop(z, f, after, t) == t
  {
  }

  lemma {:induction false} StopLands(z: Zone, f: Fields, after: int, t: int)
    requires Ends(z, f)
    ensures Stop(z, f, after, t) >= t
    ensures OutOfYears(z, f, after, Stop(z, f, after, t)) || Fires(z, f, Stop(z, f, after, t), after)
    decreases Horizon(z, f, after) - t
  {
    hide Ends, OutOfYears, Fires, Horizon, Forward;
    if !OutOfYears(z, f, after, t) && !Fires(z, f, t, after) {
      YearsLeft(z, f, after, t);
      StopLands(z, f, after, Forward(z, f, t));
    }
  }

  lemma StopStep(z: Zone, f: Fields, after: int, t: int)
    requires Ends(z, f) && !OutOfYears(z, f, after, t) && !Fires(z, f, t, after)
    ensures Stop(z, f, after, t) == Stop(z, f, after, Forward(z, f, t))
  {
    hide Ends, OutOfYears, Fires, Forward;
    YearsLeft(z, f, after, t);
  }

  /** What Next answers is strictly later and matches. */
  lemma NextIsLater(z: Zone, f: Fields, after: int)
    requires Ends(z, f) && NextOf(z, f, after).Some?
    ensures var n := NextOf(z, f, after).value;
      n > after && n % MINUTE == 0 && Fires(z, f, n / MINUTE, after)
  {
    hide Ends, OutOfYears, Fires, Stop;
    var t := after / MINUTE + 1;
    StopLands(z, f, after, t);
    assert t * MINUTE > after;
  }

  // ---- what comes first ----

  /** The wall-clock minute of `u` is on the clock again at `from` or later. */
  ghost predicate Again(z: Zone, u: int, from: int) {
    exists v :: v >= from && Wall(z, v) == Wall(z, u)
  }

  /** The minutes that fire behind `after` and in front of `n` all come again at `n` or behind it. */
  ghost predicate NoneMissed(z: Zone, f: Fields, after: int, n: int) {
    forall u :: after / MINUTE < u < n && Fires(z, f, u, after) ==> Again(z, u, n)
  }

  /** The months of a calendar: each lies ahead of the next, and matches or does not as a whole. */
  ghost predicate Months(f: Fields) {
    forall d :: d < f.nextMonth(d) && forall e :: d <= e < f.nextMonth(d) ==> f.month(e) == f.month(d)
  }

  /** No day comes back, and no jump passes anything outside the day or the hour it leaves but what
      comes again behind it. A property of the zone alone. */
  ghost predicate Tight(z: Zone) {
    && (forall t, u :: t <= u ==> DayOf(Wall(z, t)) <= DayOf(Wall(z, u)))
    && (forall d, u {:trigger Date(z, d * DAY), Wall(z, u)} ::
          u < Date(z, d * DAY) && Wall(z, u) >= d * DAY ==> Again(z, u, Date(z, d * DAY)))
    && (forall t, u {:trigger HourEnd(z, t), Wall(z, u)} ::
          t <= u < HourEnd(z, t) && HourStart(Wall(z, u)) != HourStart(Wall(z, t)) ==> Again(z, u, HourEnd(z, t)))
  }

  /** An instant that fires is jumped over only if its minute comes again behind the jump. */
  lemma NothingSkipped(z: Zone, f: Fields, after: int, t: int, u: int)
    requires Tight(z) && Months(f) && t <= u < Forward(z, f, t)
    requires Fires(z, f, u, after) && !Fires(z, f, t, after)
    ensures Again(z, u, Forward(z, f, t))
  {
    hide Again, Date, HourEnd, Wall, DayOf, HourOf, HourStart, Repeats;
    var w, x := Wall(z, t), Wall(z, u);
    DayAtLeast(x, f.nextMonth(DayOf(w)));
    DayAtLeast(x, DayOf(w) + 1);
    SameHour(w, x);
    assert DayOf(w) <= DayOf(x);
  }

  lemma SameHour(w: int, x: int)
    ensures HourStart(w) == HourStart(x) ==> HourOf(w) == HourOf(x)
  {
  }

  /** What fires in front of the place the search stops at comes again there or behind it. */
  lemma {:induction false} StopIsFirst(z: Zone, f: Fields, after: int, t: int, u: int)
    requires Ends(z, f) && Tight(z) && Months(f)
    requires t <= u < Stop(z, f, after, t) && Fires(z, f, u, after)
    ensures Again(z, u, Stop(z, f, after, t))
    decreases Horizon(z, f, after) - t
  {
    hide Ends, Tight, Months, Fires, OutOfYears, Horizon, Forward, Wall;
    YearsLeft(z, f, after, t);
    var t' := Forward(z, f, t);
    if u >= t' {
      StopIsFirst(z, f, after, t', u);
    } else {
      NothingSkipped(z, f, after, t, u);
      var v :| v >= t' && Wall(z, v) == Wall(z, u);
      AgainFires(z, f, after, u, v);
      if v < Stop(z, f, after, t') {
        StopIsFirst(z, f, after, t', v);
      }
    }
  }

  lemma AgainFires(z: Zone, f: Fields, after: int, u: int, v: int)
    requires Fires(z, f, u, after) && Wall(z, u) == Wall(z, v)
    ensures Fires(z, f, v, after)
  {
  }

  lemma NoneMissedByStop(z: Zone, f: Fields, after: int)
    requires Ends(z, f) && Tight(z) && Months(f)
    ensures NoneMissed(z, f, after, Stop(z, f, after, after / MINUTE + 1))
  {
    hide Ends, Tight, Months, Fires, Stop, Again;
    var t := after / MINUTE + 1;
    forall u | after / MINUTE < u < Stop(z, f, after, t) && Fires(z, f, u, after)
      ensures Again(z, u, Stop(z, f, after, t))
    {
      StopIsFirst(z, f, after, t, u);
    }
  }

  /** On a tight clock what Next answers comes first: a minute that fires in front of it is one the
      clock goes through again, at the answer or behind it. */
  lemma NextIsFirst(z: Zone, f: Fields, after: int)
    requires Ends(z, f) && Tight(z) && Months(f) && NextOf(z, f, after).Some?
    ensures NoneMissed(z, f, after, NextOf(z, f, after).value / MINUTE)
  {
    hide Ends, Tight, Months, NoneMissed, Stop;
    NoneMissedByStop(z, f, after);
  }

  /** Next gives up only more than nine calendar years on, and on a tight clock with nothing missed
      in front of that. */
  lemma NoneForNineYears(z: Zone, f: Fields, after: int)
    requires Ends(z, f) && NextOf(z, f, after).None?
    ensures exists n {:trigger YearAt(z, f, n)} ::
      && n * MINUTE > after && YearAt(z, f, n) > YearAt(z, f, after / MINUTE) + SEARCH_YEARS
      && (Tight(z) && Months(f) ==> NoneMissed(z, f, after, n))
  {
    hide Ends, Tight, Months, NoneMissed, Stop, YearAt;
    var t := after / MINUTE + 1;
    var n := Stop(z, f, after, t);
    StopLands(z, f, after, t);
    assert YearAt(z, f, n) > YearAt(z, f, after / MINUTE) + SEARCH_YEARS;
    if Tight(z) && Months(f) {
      NoneMissedByStop(z, f, after);
    }
  }
}
