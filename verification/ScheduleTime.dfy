/** Calendar plumbing: cron fields, interval arithmetic and the bounded calendar search. */
module ScheduleTime {
  import opened Options

  const MINUTE := 60_000         // milliseconds
  const DAY := 86_400_000        // milliseconds
  const DAY_MINUTES := 1440
  const HORIZON := 366 * 8       // days

  /** The k-th value of a progression, counted from zero. */
  function Nth(first: int, step: int, k: nat): int {
    if k == 0 then first else Nth(first, step, k - 1) + step
  }

  lemma {:induction false} NthIncreases(first: int, step: int, j: nat, k: nat)
    requires step > 0 && j < k
    ensures Nth(first, step, j) + step <= Nth(first, step, k)
  {
    if j < k - 1 {
      NthIncreases(first, step, j, k - 1);
    }
  }

  lemma {:induction false} NthIsLinear(first: int, step: int, k: nat)
    ensures Nth(first, step, k) == first + k * step
  {
    if k > 0 {
      NthIsLinear(first, step, k - 1);
    }
  }

  // ---------------------------------------------------------------- cron fields

  datatype Base = Star | Value(n: nat) | Range(lo: nat, hi: nat)

  /** One comma-separated part of a cron field, after tokenizing. */
  datatype Part = Part(base: Base, step: Option<nat>) {
    function Low(min: nat): nat {
      match base
      case Star => min
      case Value(n) => n
      case Range(lo, _) => lo
    }

    function High(max: nat): nat {
      match base
      case Star => max
      case Value(n) => if step.Some? then max else n
      case Range(_, hi) => hi
    }

    predicate Fits(min: nat, max: nat) {
      1 <= step.GetOr(1) <= max + 1 && min <= Low(min) <= High(max) <= max
    }

    /** The numbers a part stands for, said without the loop that lists them. */
    ghost predicate Denotes(min: nat, max: nat, n: int) {
      n <= High(max) && exists k: nat :: n == Nth(Low(min), step.GetOr(1), k)
    }
  }

  /** Which parts are in range. */
  lemma FitsExactly(part: Part, min: nat, max: nat)
    requires min <= max
    ensures part.Fits(min, max) <==>
              && (part.step == None || 1 <= part.step.value <= max + 1)
              && match part.base
                 case Star => true
                 case Value(n) => min <= n <= max
                 case Range(lo, hi) => min <= lo <= hi <= max
  {
  }

  /** And what they denote: from the first number on, in steps, up to the last; a single number with a step goes on to the end. */
  lemma DenotesExactly(part: Part, min: nat, max: nat, n: int)
    requires part.Fits(min, max)
    ensures var step := part.step.GetOr(1);
            part.Denotes(min, max, n) <==>
              match part.base
              case Star => min <= n <= max && (n - min) % step == 0
              case Value(v) => if part.step == None then n == v else v <= n <= max && (n - v) % step == 0
              case Range(lo, hi) => lo <= n <= hi && (n - lo) % step == 0
  {
    DenotesBySteps(part, min, max, n);
    ZeroIsMultiple(part.step.GetOr(1));
  }

  /** Reached from the first number in whole steps. */
  predicate Stepped(low: int, step: int, n: int)
    requires step > 0
  {
    n >= low && (n - low) % step == 0
  }

  lemma DenotesBySteps(part: Part, min: nat, max: nat, n: int)
    requires part.Fits(min, max)
    ensures part.Denotes(min, max, n) <==> n <= part.High(max) && Stepped(part.Low(min), part.step.GetOr(1), n)
  {
    if n <= part.High(max) && Stepped(part.Low(min), part.step.GetOr(1), n) {
      var k := SteppedIsNth(part.Low(min), part.step.GetOr(1), n);
      DenotesNth(part, min, max, k);
    }
    if part.Denotes(min, max, n) {
      var k: nat :| n == Nth(part.Low(min), part.step.GetOr(1), k);
      NthIsStepped(part.Low(min), part.step.GetOr(1), k);
    }
  }

  lemma DenotesNth(part: Part, min: nat, max: nat, k: nat)
    ensures var n := Nth(part.Low(min), part.step.GetOr(1), k); n <= part.High(max) ==> part.Denotes(min, max, n)
  {
  }

  lemma ZeroIsMultiple(step: nat)
    requires step > 0
    ensures 0 % step == 0
    ensures step == 1 ==> forall n: int :: n % step == 0
  {
  }

  lemma SteppedIsNth(low: nat, step: nat, n: int) returns (k: nat)
    requires step > 0 && Stepped(low, step, n)
    ensures n == Nth(low, step, k)
  {
    k := (n - low) / step;
    NthIsLinear(low, step, k);
  }

  lemma NthIsStepped(low: nat, step: nat, k: nat)
    requires step > 0
    ensures Stepped(low, step, Nth(low, step, k))
  {
    NthIsLinear(low, step, k);
    MultipleOf(k, step);
  }

  lemma MultipleOf(k: nat, step: nat)
    requires step > 0
    ensures k * step >= 0 && (k * step) % step == 0
  {
    var a := k * step;
    var q, r := a / step, a % step;
    assert a == q * step + r && r == (k - q) * step;
    MultiplesApart(k - q, step);
  }

  lemma MultiplesApart(j: int, step: int)
    requires step > 0
    ensures (j >= 1 ==> j * step >= step) && (j <= -1 ==> j * step <= -step)
  {
  }

  ghost predicate InField(parts: seq<Part>, min: nat, max: nat, n: int) {
    exists p :: p in parts && p.Denotes(min, max, n)
  }

  ghost predicate AllFit(parts: seq<Part>, min: nat, max: nat) {
    forall p :: p in parts ==> p.Fits(min, max)
  }

  ghost predicate IsField(values: set<int>, parts: seq<Part>, min: nat, max: nat) {
    forall n :: n in values <==> InField(parts, min, max, n)
  }

  method PartValues(part: Part, min: nat, max: nat) returns (listed: set<int>)
    requires part.Fits(min, max)
    ensures forall n :: n in listed <==> part.Denotes(min, max, n)
    ensures forall n :: n in listed ==> min <= n <= max
  {
    var low, step, high := part.Low(min), part.step.GetOr(1), part.High(max);
    listed := {};
    var n := low;
    ghost var k: nat := 0;
    while n <= high
      invariant n == Nth(low, step, k) >= low
      invariant forall x :: x in listed <==> exists j: nat :: j < k && x == Nth(low, step, j)
      invariant forall x :: x in listed ==> low <= x <= high
      decreases high as int - n
    {
      listed := listed + {n};
      NthIncreases(low, step, k, k + 1);
      assert Nth(low, step, k + 1) == n + step;
      n, k := n + step, k + 1;
    }
    forall x | x in listed ensures part.Denotes(min, max, x) && min <= x <= max {
      var j: nat :| j < k && x == Nth(low, step, j);
      assert part.Low(min) == low && part.step.GetOr(1) == step;
      assert min <= low <= x;
      assert x <= high <= max;
    }
    forall x | part.Denotes(min, max, x) ensures x in listed {
      var j: nat :| x == Nth(low, step, j);
      if j > k {
        NthIncreases(low, step, k, j);
      }
    }
  }

  /** A field denotes exactly the union of its parts, or is refused for a part out of range. */
  method Field(parts: seq<Part>, min: nat, max: nat) returns (r: Option<set<int>>)
    ensures r.Some? <==> AllFit(parts, min, max)
    ensures r.Some? ==> IsField(r.value, parts, min, max) && forall n :: n in r.value ==> min <= n <= max
  {
    var values: set<int> := {};
    for i := 0 to |parts|
      invariant AllFit(parts[..i], min, max) && IsField(values, parts[..i], min, max)
      invariant forall n :: n in values ==> min <= n <= max
    {
      var part := parts[i];
      if !part.Fits(min, max) {
        return None;
      }
      var listed := PartValues(part, min, max);
      assert parts[..i + 1] == parts[..i] + [part];
      forall n ensures InField(parts[..i + 1], min, max, n) <==> n in values + listed {
        assert part in parts[..i + 1];
        assert InField(parts[..i], min, max, n) <==> n in values;
      }
      values := values + listed;
    }
    assert parts[..|parts|] == parts;
    return Some(values);
  }

  datatype Fields = Fields(minutes: set<int>, hours: set<int>, days: set<int>, months: set<int>, weekdays: set<int>,
                           dayStar: bool, weekdayStar: bool) {
    predicate Valid() {
      && (forall m :: m in minutes ==> 0 <= m < 60)
      && (forall h :: h in hours ==> 0 <= h < 24)
    }
  }

  /** The text of a field begins with a star. */
  predicate Starred(parts: seq<Part>) {
    parts != [] && parts[0].base.Star?
  }

  /** Both 0 and 7 name Sunday. */
  method Weekdays(parts: seq<Part>) returns (r: Option<set<int>>)
    ensures r.Some? <==> AllFit(parts, 0, 7)
    ensures r.Some? ==> forall n :: n in r.value <==>
              (0 <= n < 7 && InField(parts, 0, 7, n)) || (n == 0 && InField(parts, 0, 7, 7))
  {
    var listed := Field(parts, 0, 7);
    if listed.None? {
      return None;
    }
    var days := set n | n in listed.value :: n % 7;
    forall n ensures n in days <==> (0 <= n < 7 && n in listed.value) || (n == 0 && 7 in listed.value) {
      if n in days {
        var m :| m in listed.value && n == m % 7;
      }
      if 0 <= n < 7 && n in listed.value {
        assert n == n % 7;
      }
      if 7 in listed.value {
        assert 7 % 7 in days;
      }
    }
    return Some(days);
  }

  /** The five fields as their texts denote them, with the flags of the day and the weekday field. */
  ghost predicate IsCalendar(c: Fields, parts: seq<seq<Part>>) {
    && |parts| == 5 && IsField(c.minutes, parts[0], 0, 59) && IsField(c.hours, parts[1], 0, 23)
    && IsField(c.days, parts[2], 1, 31) && IsField(c.months, parts[3], 1, 12)
    && c.dayStar == Starred(parts[2]) && c.weekdayStar == Starred(parts[4])
    && forall n :: n in c.weekdays <==> (0 <= n < 7 && InField(parts[4], 0, 7, n)) || (n == 0 && InField(parts[4], 0, 7, 7))
  }

  /** Minute, hour, day, month and weekday, each within its own range, or a refusal. */
  method ParseCalendar(parts: seq<seq<Part>>) returns (r: Option<Fields>)
    ensures r.Some? <==> |parts| == 5 && AllFit(parts[0], 0, 59) && AllFit(parts[1], 0, 23) && AllFit(parts[2], 1, 31)
                         && AllFit(parts[3], 1, 12) && AllFit(parts[4], 0, 7)
    ensures r.Some? ==> r.value.Valid() && IsCalendar(r.value, parts)
  {
    if |parts| != 5 {
      return None;
    }
    var minutes := Field(parts[0], 0, 59);
    var hours := Field(parts[1], 0, 23);
    var days := Field(parts[2], 1, 31);
    var months := Field(parts[3], 1, 12);
    var weekdays := Weekdays(parts[4]);
    if minutes.None? || hours.None? || days.None? || months.None? || weekdays.None? {
      return None;
    }
    return Some(Fields(minutes.value, hours.value, days.value, months.value, weekdays.value, Starred(parts[2]), Starred(parts[4])));
  }

  // ---------------------------------------------------------------- time zones

  /**
   * A zone maps a minute, counted from the epoch, to the wall-clock minute it shows, counted the
   * same way: the formatter drops seconds, so nothing finer is ever read from it.
   */
  type Zone = int -> int

  function Offset(zone: Zone, k: int): int {
    zone(k) - k
  }

  /** Between minutes at most three days apart the offset switches no more than once. */
  predicate OneSwitch(zone: Zone, a: int, b: int, c: int) {
    a <= b <= c <= a + 3 * DAY_MINUTES ==> Offset(zone, a) == Offset(zone, b) || Offset(zone, b) == Offset(zone, c)
  }

  predicate Bounded(zone: Zone, k: int) {
    -DAY_MINUTES < Offset(zone, k) < DAY_MINUTES
  }

  /** Offsets stay under a day, and no three days hold two switches of the offset. */
  ghost predicate Regular(zone: Zone) {
    (forall k :: Bounded(zone, k)) && (forall a, b, c :: OneSwitch(zone, a, b, c))
  }

  /** The first minute at which the zone shows its wall time. */
  ghost predicate First(zone: Zone, k: int) {
    forall u :: u < k ==> zone(u) != zone(k)
  }

  /** A clock that falls back shows only readings it has shown before. */
  lemma FallsBackOntoShown(zone: Zone, k: int, later: int) returns (u: int)
    requires Regular(zone) && k < later && zone(later) <= zone(k)
    ensures u < later && zone(u) == zone(later)
  {
    u := later - (Offset(zone, k) - Offset(zone, later));
    assert Bounded(zone, k) && Bounded(zone, later) && OneSwitch(zone, u, k, later);
  }

  lemma FirstIsRecord(zone: Zone, k: int, later: int)
    requires Regular(zone) && First(zone, later) && k < later
    ensures zone(k) < zone(later)
  {
    if zone(later) <= zone(k) {
      var u := FallsBackOntoShown(zone, k, later);
    }
  }

  /** Every wall time that is shown at all has a first minute. */
  lemma {:induction false} ShownHasFirst(zone: Zone, k: int) returns (f: int)
    requires Regular(zone)
    ensures f <= k && First(zone, f) && zone(f) == zone(k)
    decreases k - (zone(k) - DAY_MINUTES)
  {
    assert Bounded(zone, k);
    if First(zone, k) {
      f := k;
    } else {
      var u :| u < k && zone(u) == zone(k);
      assert Bounded(zone, u);
      f := ShownHasFirst(zone, u);
    }
  }

  // ---------------------------------------------------------------- probing one local day

  predicate OnDay(w: int, d: int) {
    d * DAY_MINUTES <= w < (d + 1) * DAY_MINUTES
  }

  /** The offsets seen a day before, at, and a day after the day's start. */
  function Offsets(zone: Zone, d: int): set<int> {
    {Offset(zone, (d - 1) * DAY_MINUTES), Offset(zone, d * DAY_MINUTES), Offset(zone, (d + 1) * DAY_MINUTES)}
  }

  function Probe(zone: Zone, offset: int, desired: int): Option<int> {
    if zone(desired - offset) == desired then Some(desired - offset) else None
  }

  function Earlier(a: Option<int>, b: Option<int>): Option<int> {
    if a.None? then b else if b.None? then a else if a.value <= b.value then a else b
  }

  /** The earliest probed minute that shows the desired wall time. */
  function Earliest(zone: Zone, d: int, desired: int): Option<int> {
    Earlier(Probe(zone, Offset(zone, (d - 1) * DAY_MINUTES), desired),
            Earlier(Probe(zone, Offset(zone, d * DAY_MINUTES), desired), Probe(zone, Offset(zone, (d + 1) * DAY_MINUTES), desired)))
  }

  lemma EarliestShows(zone: Zone, d: int, desired: int)
    ensures var r := Earliest(zone, d, desired);
            && (r.Some? ==> zone(r.value) == desired && desired - r.value in Offsets(zone, d))
            && forall o :: o in Offsets(zone, d) && zone(desired - o) == desired ==> r.Some? && r.value <= desired - o
  {
  }

  /** The three probes know the offset of every wall time first shown on local day d. */
  ghost predicate Covers(zone: Zone, d: int) {
    forall k :: First(zone, k) && OnDay(zone(k), d) ==> Offset(zone, k) in Offsets(zone, d)
  }

  lemma ProbeFindsFirst(zone: Zone, d: int, k: int)
    requires First(zone, k)
    ensures Offset(zone, k) in Offsets(zone, d) <==> Earliest(zone, d, zone(k)) == Some(k)
  {
    EarliestShows(zone, d, zone(k));
    assert zone(zone(k) - Offset(zone, k)) == zone(k);
  }

  /** A minute after the last probe of day d, at another offset than that probe saw. */
  predicate Hidden(zone: Zone, d: int, k: int) {
    k > (d + 1) * DAY_MINUTES && Offset(zone, k) != Offset(zone, (d + 1) * DAY_MINUTES)
  }

  /** The zone switches after the last probe but before the local day is over. */
  ghost predicate LateSwitch(zone: Zone, d: int) {
    exists k :: First(zone, k) && OnDay(zone(k), d) && Hidden(zone, d, k)
  }

  lemma MissedAfterLastProbe(zone: Zone, d: int, k: int)
    requires Regular(zone) && OnDay(zone(k), d)
    ensures Offset(zone, k) in Offsets(zone, d) <==> !Hidden(zone, d, k)
  {
    var a, b, c := (d - 1) * DAY_MINUTES, d * DAY_MINUTES, (d + 1) * DAY_MINUTES;
    assert Bounded(zone, k);
    assert OneSwitch(zone, a, b, c) && OneSwitch(zone, a, c, k) && OneSwitch(zone, a, k, c);
  }

  /**
   * On a regular zone the search finds every wall time first shown on a day exactly when the zone
   * does not switch between the last probe and the end of that local day.
   */
  lemma FindsDayExactly(zone: Zone, d: int)
    requires Regular(zone)
    ensures (forall k :: First(zone, k) && zone(k) / 1440 == d ==> Earliest(zone, d, zone(k)) == Some(k)) <==> !LateSwitch(zone, d)
    ensures Covers(zone, d) <==> !LateSwitch(zone, d)
  {
    forall k | First(zone, k) && OnDay(zone(k), d)
      ensures Earliest(zone, d, zone(k)) == Some(k) <==> Offset(zone, k) in Offsets(zone, d)
      ensures Offset(zone, k) in Offsets(zone, d) <==> !Hidden(zone, d, k)
    {
      ProbeFindsFirst(zone, d, k);
      MissedAfterLastProbe(zone, d, k);
    }
  }

  /** A zone six hours behind that springs forward at 22:00 local time, as Pacific/Easter does. */
  function EasterLike(k: int): int {
    if k < 28 * 60 then k - 6 * 60 else k - 5 * 60
  }

  const LATE_EVENING := 23 * 60 + 30

  /** There the search passes over 23:30, a wall time the clock shows that very day. */
  lemma LateSwitchIsMissed()
    ensures Regular(EasterLike) && LateSwitch(EasterLike, 0)
    ensures exists k :: First(EasterLike, k) && EasterLike(k) == LATE_EVENING
    ensures Earliest(EasterLike, 0, LATE_EVENING) == None
  {
    var k := 28 * 60 + 30;
    assert EasterLike(k) == LATE_EVENING;
    forall u | u < k ensures EasterLike(u) != LATE_EVENING {}
    assert First(EasterLike, k);
    assert OnDay(EasterLike(k), 0);
    assert Offset(EasterLike, k) != Offset(EasterLike, DAY_MINUTES);
  }

  // ---------------------------------------------------------------- the calendar search

  /** Gregorian month and day of month of a day number counted from 1970-01-01, a Thursday. */
  datatype Gregorian = Gregorian(month: int -> int, date: int -> int)

  function Weekday(d: int): int {
    (d + 4) % 7
  }

  /** A restricted day of month and a restricted weekday are alternatives; otherwise both must hold. */
  predicate DayMatches(g: Gregorian, c: Fields, d: int) {
    var dom, dow := g.date(d) in c.days, Weekday(d) in c.weekdays;
    g.month(d) in c.months && if c.dayStar || c.weekdayStar then dom && dow else dom || dow
  }

  function Reading(d: int, h: int, m: int): int {
    d * DAY_MINUTES + h * 60 + m
  }

  /** Wall time w is one the fields ask for on day d. */
  ghost predicate Matches(g: Gregorian, c: Fields, d: int, w: int) {
    DayMatches(g, c, d) && exists h, m :: h in c.hours && m in c.minutes && w == Reading(d, h, m)
  }

  // ---------------------------------------------------------------- what the day rule means

  /** Day 0 was a Thursday, and weekdays follow one another. */
  lemma WeekdaysFollow(d: int)
    ensures Weekday(0) == 4 && 0 <= Weekday(d) < 7
    ensures Weekday(d + 1) == if Weekday(d) == 6 then 0 else Weekday(d) + 1
  {
  }

  /** A day is admitted by its month, and by its date and weekday: by both when one of these begins with a star, else by either. */
  lemma DaysExactly(g: Gregorian, c: Fields, parts: seq<seq<Part>>, d: int)
    requires IsCalendar(c, parts)
    ensures var date, weekday := InField(parts[2], 1, 31, g.date(d)),
                                 InField(parts[4], 0, 7, Weekday(d)) || (Weekday(d) == 0 && InField(parts[4], 0, 7, 7));
            var starred := (parts[2] != [] && parts[2][0].base == Star) || (parts[4] != [] && parts[4][0].base == Star);
            && (DayMatches(g, c, d) ==> InField(parts[3], 1, 12, g.month(d)) && (date || weekday) && (starred ==> date && weekday))
            && (InField(parts[3], 1, 12, g.month(d)) && date && weekday ==> DayMatches(g, c, d))
            && (InField(parts[3], 1, 12, g.month(d)) && !starred && date ==> DayMatches(g, c, d))
            && (InField(parts[3], 1, 12, g.month(d)) && !starred && weekday ==> DayMatches(g, c, d))
  {
    WeekdaysFollow(d);
  }

  const ANY := [Part(Star, None)]

  lemma AnyDenotesAll(min: nat, max: nat, n: int)
    requires min <= n <= max
    ensures InField(ANY, min, max, n)
  {
    NthIsLinear(min, 1, n - min);
    assert n == Nth(ANY[0].Low(min), ANY[0].step.GetOr(1), n - min);
    assert ANY[0] in ANY && ANY[0].Denotes(min, max, n);
  }

  /** A plain star for the date leaves the choice to the weekday, and a plain star for the weekday to the date. */
  lemma StarLeavesTheOther(g: Gregorian, c: Fields, parts: seq<seq<Part>>, d: int)
    requires IsCalendar(c, parts) && 1 <= g.date(d) <= 31
    ensures parts[2] == ANY ==>
              (DayMatches(g, c, d) <==>
                && InField(parts[3], 1, 12, g.month(d))
                && (InField(parts[4], 0, 7, Weekday(d)) || (Weekday(d) == 0 && InField(parts[4], 0, 7, 7))))
    ensures parts[4] == ANY ==>
              (DayMatches(g, c, d) <==> InField(parts[3], 1, 12, g.month(d)) && InField(parts[2], 1, 31, g.date(d)))
  {
    DaysExactly(g, c, parts, d);
    WeekdaysFollow(d);
    AnyDenotesAll(1, 31, g.date(d));
    AnyDenotesAll(0, 7, Weekday(d));
  }

  /** A wall time matches by the day it lies on, and by its hour and minute. */
  lemma MatchesExactly(g: Gregorian, c: Fields, d: int, w: int)
    requires c.Valid()
    ensures Matches(g, c, d, w) <==>
              d == w / 1440 && w % 1440 / 60 in c.hours && w % 60 in c.minutes && DayMatches(g, c, w / 1440)
  {
    if d == w / 1440 {
      ReadingParts(w);
      assert w == Reading(d, w % 1440 / 60, w % 60);
    }
    if Matches(g, c, d, w) {
      var h, m :| h in c.hours && m in c.minutes && w == Reading(d, h, m);
      ReadingRange(d, h, m);
    }
  }

  lemma ReadingParts(w: int)
    ensures w == Reading(w / 1440, w % 1440 / 60, w % 60)
  {
    assert w % 1440 % 60 == w % 60;
  }

  lemma ReadingRange(d: int, h: int, m: int)
    requires 0 <= h < 24 && 0 <= m < 60
    ensures var w := Reading(d, h, m); d == w / 1440 && w % 1440 / 60 == h && w % 60 == m
  {
    WithinDay(d, h * 60 + m);
    WithinHour(h, m);
    WithinHour(d * 24 + h, m);
    assert Reading(d, h, m) == (d * 24 + h) * 60 + m;
  }

  lemma WithinDay(d: int, r: int)
    requires 0 <= r < 1440
    ensures (d * 1440 + r) / 1440 == d && (d * 1440 + r) % 1440 == r
  {
  }

  lemma WithinHour(h: int, r: int)
    requires 0 <= r < 60
    ensures (h * 60 + r) / 60 == h && (h * 60 + r) % 60 == r
  {
  }

  /** So every answer of the search falls on an admitted day, at an admitted hour and minute. */
  lemma MatchingExactly(g: Gregorian, c: Fields, w: int)
    requires c.Valid()
    ensures Matching(g, c, w) <==> w % 1440 / 60 in c.hours && w % 60 in c.minutes && DayMatches(g, c, w / 1440)
  {
    MatchesExactly(g, c, w / 1440, w);
    if Matching(g, c, w) {
      var d :| Matches(g, c, d, w);
      MatchesExactly(g, c, d, w);
    }
  }

  /** Minute k, as an instant in milliseconds, lies in the window. */
  predicate InWindow(from: int, until: Option<int>, k: int) {
    from <= k * MINUTE && (until.Some? ==> k * MINUTE <= until.value)
  }

  /** What the search accepts for wall time w on day d. */
  function Accepted(zone: Zone, from: int, until: Option<int>, d: int, w: int): Option<int> {
    var at := Earliest(zone, d, w);
    if at.Some? && InWindow(from, until, at.value) then at else None
  }

  /** The answer for the times of one day that were looked at: the least accepted minute among them. */
  ghost predicate LeastOf(c: Fields, accept: (int, int) -> Option<int>, hours: int, minutes: int, best: Option<int>) {
    && (best.Some? ==> exists h, m :: h in c.hours && m in c.minutes && accept(h, m) == best)
    && (forall h, m :: h in c.hours && m in c.minutes && (h < hours || (h == hours && m < minutes)) && accept(h, m).Some? ==>
                         best.Some? && best.value <= accept(h, m).value)
  }

  method BestOnDay(c: Fields, accept: (int, int) -> Option<int>) returns (best: Option<int>)
    requires c.Valid()
    ensures LeastOf(c, accept, 24, 0, best)
  {
    best := None;
    for h := 0 to 24
      invariant LeastOf(c, accept, h, 0, best)
    {
      if h in c.hours {
        for m := 0 to 60
          invariant LeastOf(c, accept, h, m, best)
        {
          if m in c.minutes {
            best := Earlier(best, accept(h, m));
          }
        }
      }
    }
  }

  /** A due minute: the first showing of a matching wall time inside the window. */
  ghost predicate Due(zone: Zone, g: Gregorian, c: Fields, from: int, until: Option<int>, d: int, k: int) {
    First(zone, k) && Matches(g, c, d, zone(k)) && InWindow(from, until, k)
  }

  lemma DueExactly(zone: Zone, g: Gregorian, c: Fields, from: int, until: Option<int>, d: int, k: int)
    requires c.Valid()
    ensures Due(zone, g, c, from, until, d, k) <==>
              && (forall u :: u < k ==> zone(u) != zone(k))
              && d == zone(k) / 1440 && zone(k) % 1440 / 60 in c.hours && zone(k) % 60 in c.minutes && DayMatches(g, c, d)
              && from <= k * 60000 && (until.Some? ==> k * 60000 <= until.value)
  {
    MatchesExactly(g, c, d, zone(k));
  }

  function Max(a: int, b: int): int {
    if a < b then b else a
  }

  function FirstDay(zone: Zone, from: int): int {
    zone(from / MINUTE) / DAY_MINUTES
  }

  /** Nothing is accepted on day d. */
  ghost predicate Empty(zone: Zone, g: Gregorian, c: Fields, from: int, until: Option<int>, d: int) {
    forall w :: Matches(g, c, d, w) ==> Accepted(zone, from, until, d, w).None?
  }

  ghost predicate Barren(zone: Zone, g: Gregorian, c: Fields, from: int, until: Option<int>, first: int, d: int) {
    forall e :: first <= e < d ==> Empty(zone, g, c, from, until, e)
  }

  /** Minute k is the least one accepted on day d. */
  ghost predicate LeastOnDay(zone: Zone, g: Gregorian, c: Fields, from: int, until: Option<int>, d: int, k: int) {
    && (exists w :: Matches(g, c, d, w) && Accepted(zone, from, until, d, w) == Some(k))
    && (forall w :: Matches(g, c, d, w) && Accepted(zone, from, until, d, w).Some? ==> k <= Accepted(zone, from, until, d, w).value)
  }

  method SearchDay(zone: Zone, g: Gregorian, c: Fields, from: int, until: Option<int>, d: int) returns (r: Option<int>)
    requires c.Valid()
    ensures if r.Some? then LeastOnDay(zone, g, c, from, until, d, r.value) else Empty(zone, g, c, from, until, d)
  {
    if !DayMatches(g, c, d) {
      return None;
    }
    var accept := (h, m) => Accepted(zone, from, until, d, Reading(d, h, m));
    r := BestOnDay(c, accept);
    DayAnswer(zone, g, c, from, until, d, accept, r);
  }

  lemma DayAnswer(zone: Zone, g: Gregorian, c: Fields, from: int, until: Option<int>, d: int,
      accept: (int, int) -> Option<int>, r: Option<int>)
    requires DayMatches(g, c, d) && c.Valid() && LeastOf(c, accept, 24, 0, r)
    requires forall h, m :: accept(h, m) == Accepted(zone, from, until, d, Reading(d, h, m))
    ensures if r.Some? then LeastOnDay(zone, g, c, from, until, d, r.value) else Empty(zone, g, c, from, until, d)
  {
    if r.Some? {
      var h, m :| h in c.hours && m in c.minutes && accept(h, m) == r;
      assert Matches(g, c, d, Reading(d, h, m));
    }
  }

  lemma BarrenExtends(zone: Zone, g: Gregorian, c: Fields, from: int, until: Option<int>, first: int, d: int)
    requires Barren(zone, g, c, from, until, first, d) && Empty(zone, g, c, from, until, d)
    ensures Barren(zone, g, c, from, until, first, d + 1)
  {
  }

  /** The days are tried in order up to the horizon, or until their minutes all lie past the end. */
  method SearchDays(zone: Zone, g: Gregorian, c: Fields, from: int, until: Option<int>) returns (r: Option<int>, d: int)
    requires c.Valid()
    ensures FirstDay(zone, from) <= d && Barren(zone, g, c, from, until, FirstDay(zone, from), d)
    ensures r.Some? ==> d <= FirstDay(zone, from) + HORIZON && LeastOnDay(zone, g, c, from, until, d, r.value)
    ensures r.None? ==> d > FirstDay(zone, from) + HORIZON || (until.Some? && (d - 1) * DAY > until.value)
  {
    var firstDay := FirstDay(zone, from);
    d := firstDay;
    while d <= firstDay + HORIZON
      invariant firstDay <= d <= firstDay + HORIZON + 1
      invariant Barren(zone, g, c, from, until, firstDay, d)
    {
      if until.Some? && d * DAY - DAY > until.value {
        break;
      }
      r := SearchDay(zone, g, c, from, until, d);
      if r.Some? {
        return;
      }
      BarrenExtends(zone, g, c, from, until, firstDay, d);
      d := d + 1;
    }
    return None, d;
  }

  /** In a regular zone the answer is the least due instant after `after` exactly when every hidden one comes behind a seen one. */
  method NextCron(zone: Zone, g: Gregorian, c: Fields, start: int, until: Option<int>, after: int) returns (r: Option<int>)
    requires c.Valid()
    ensures r.Some? ==> r.value * MINUTE > after && InWindow(start, until, r.value) && Matching(g, c, zone(r.value))
    ensures Regular(zone) ==> var from := Max(after + 1, start);
                              (LeastDue(zone, g, c, from, until, r) <==> HiddenAreOvertaken(zone, g, c, from, until))
  {
    var from := Max(after + 1, start);
    if until.Some? && from > until.value {
      return None;
    }
    var d;
    r, d := SearchDays(zone, g, c, from, until);
    if r.Some? {
      ghost var w :| Matches(g, c, d, w) && Accepted(zone, from, until, d, w) == Some(r.value);
      EarliestShows(zone, d, w);
    }
    if Regular(zone) {
      SearchFindsLeast(zone, g, c, from, until, r, d);
    }
  }

  /** A due minute up to the horizon that the probes of its day see. */
  ghost predicate Seen(zone: Zone, g: Gregorian, c: Fields, from: int, until: Option<int>, e: int, j: int) {
    Due(zone, g, c, from, until, e, j) && e <= FirstDay(zone, from) + 366 * 8 && !Hidden(zone, e, j)
  }

  /** Every due minute up to the horizon that lies behind the last probe of its day has a seen one before it. */
  ghost predicate HiddenAreOvertaken(zone: Zone, g: Gregorian, c: Fields, from: int, until: Option<int>) {
    forall e, k :: Due(zone, g, c, from, until, e, k) && e <= FirstDay(zone, from) + 366 * 8 && Hidden(zone, e, k) ==>
                     Overtaken(zone, g, c, from, until, k)
  }

  ghost predicate Overtaken(zone: Zone, g: Gregorian, c: Fields, from: int, until: Option<int>, k: int) {
    exists d, j :: Seen(zone, g, c, from, until, d, j) && j < k
  }

  /** No due minute up to the horizon lies before the answer and behind the last probe of its day. */
  ghost predicate NothingHidden(zone: Zone, g: Gregorian, c: Fields, from: int, until: Option<int>, r: Option<int>) {
    forall e, k :: Due(zone, g, c, from, until, e, k) && e <= FirstDay(zone, from) + 366 * 8 && Hidden(zone, e, k) ==>
        r.Some? && r.value <= k
  }

  /** The fields and the day rule admit this wall time. */
  ghost predicate Matching(g: Gregorian, c: Fields, w: int) {
    exists d :: Matches(g, c, d, w)
  }

  /** Nothing due comes before the answer; without one, nothing is due up to the horizon. */
  ghost predicate LeastDue(zone: Zone, g: Gregorian, c: Fields, from: int, until: Option<int>, r: Option<int>) {
    match r
    case Some(best) =>
      && First(zone, best) && Matching(g, c, zone(best)) && InWindow(from, until, best)
      && forall e, k :: Due(zone, g, c, from, until, e, k) ==> best <= k
    case None => forall e, k :: Due(zone, g, c, from, until, e, k) ==> e > FirstDay(zone, from) + 366 * 8
  }

  lemma MatchIsOnDay(g: Gregorian, c: Fields, d: int, w: int)
    requires c.Valid() && Matches(g, c, d, w)
    ensures OnDay(w, d)
  {
  }

  /** What the search accepts is the first showing of its wall time, whatever the zone hides. */
  lemma AcceptedIsFirst(zone: Zone, from: int, until: Option<int>, d: int, w: int)
    requires Regular(zone) && OnDay(w, d) && Accepted(zone, from, until, d, w).Some?
    ensures var k := Accepted(zone, from, until, d, w).value; First(zone, k) && zone(k) == w && InWindow(from, until, k)
  {
    EarliestShows(zone, d, w);
    var k := Accepted(zone, from, until, d, w).value;
    var f := ShownHasFirst(zone, k);
    ProbeFindsFirst(zone, d, f);
    MissedAfterLastProbe(zone, d, f);
    assert Bounded(zone, f) && Bounded(zone, k) && OneSwitch(zone, (d + 1) * DAY_MINUTES, f, k);
  }

  /** A due minute lies on no day before the first one searched, and is accepted unless it is hidden. */
  lemma DueIsAccepted(zone: Zone, g: Gregorian, c: Fields, from: int, until: Option<int>, d: int, k: int)
    requires c.Valid() && Regular(zone) && Due(zone, g, c, from, until, d, k)
    ensures FirstDay(zone, from) <= d && (d - 1) * DAY <= k * MINUTE
    ensures !Hidden(zone, d, k) ==> Accepted(zone, from, until, d, zone(k)) == Some(k)
  {
    MatchIsOnDay(g, c, d, zone(k));
    assert Bounded(zone, k);
    if from / MINUTE < k {
      FirstIsRecord(zone, from / MINUTE, k);
    }
    assert zone(from / MINUTE) <= zone(k);
    ProbeFindsFirst(zone, d, k);
    MissedAfterLastProbe(zone, d, k);
  }

  lemma SearchFindsLeast(zone: Zone, g: Gregorian, c: Fields, from: int, until: Option<int>, r: Option<int>, d: int)
    requires c.Valid() && Regular(zone) && FirstDay(zone, from) <= d
    requires Barren(zone, g, c, from, until, FirstDay(zone, from), d)
    requires r.Some? ==> d <= FirstDay(zone, from) + HORIZON && LeastOnDay(zone, g, c, from, until, d, r.value)
    requires r.None? ==> d > FirstDay(zone, from) + HORIZON || (until.Some? && (d - 1) * DAY > until.value)
    ensures LeastDue(zone, g, c, from, until, r) <==> NothingHidden(zone, g, c, from, until, r)
    ensures NothingHidden(zone, g, c, from, until, r) <==> HiddenAreOvertaken(zone, g, c, from, until)
  {
    if r.Some? {
      AnswerIsSeen(zone, g, c, from, until, r.value, d);
    }
    HiddenBehindTheAnswer(zone, g, c, from, until, r, d);
    if NothingHidden(zone, g, c, from, until, r) {
      forall e, k | Due(zone, g, c, from, until, e, k)
        ensures e <= FirstDay(zone, from) + HORIZON ==> r.Some?
        ensures r.Some? ==> r.value <= k
      {
        DueIsAccepted(zone, g, c, from, until, e, k);
        MatchIsOnDay(g, c, e, zone(k));
        if r.Some? && k < r.value {
          FirstIsRecord(zone, k, r.value);
        }
        NoneMissed(zone, g, c, from, until, FirstDay(zone, from), r, d, e, k);
      }
    }
  }

  /** The answer of a day is a due minute that the probes of that day see. */
  lemma AnswerIsSeen(zone: Zone, g: Gregorian, c: Fields, from: int, until: Option<int>, k: int, d: int)
    requires c.Valid() && Regular(zone) && d <= FirstDay(zone, from) + HORIZON && LeastOnDay(zone, g, c, from, until, d, k)
    ensures Seen(zone, g, c, from, until, d, k) && OnDay(zone(k), d)
  {
    var w :| Matches(g, c, d, w) && Accepted(zone, from, until, d, w) == Some(k);
    MatchIsOnDay(g, c, d, w);
    AcceptedIsFirst(zone, from, until, d, w);
    ProbeFindsFirst(zone, d, k);
    MissedAfterLastProbe(zone, d, k);
  }

  /** A seen minute bounds the answer. */
  lemma SeenIsNotMissed(zone: Zone, g: Gregorian, c: Fields, from: int, until: Option<int>, r: Option<int>, d: int, e: int, j: int)
    requires c.Valid() && Regular(zone) && Seen(zone, g, c, from, until, e, j)
    requires Barren(zone, g, c, from, until, FirstDay(zone, from), d)
    requires r.Some? ==> d <= FirstDay(zone, from) + HORIZON && LeastOnDay(zone, g, c, from, until, d, r.value)
    requires r.None? ==> d > FirstDay(zone, from) + HORIZON || (until.Some? && (d - 1) * DAY > until.value)
    ensures r.Some? && r.value <= j
  {
    DueIsAccepted(zone, g, c, from, until, e, j);
    MatchIsOnDay(g, c, e, zone(j));
    if r.Some? {
      AnswerIsSeen(zone, g, c, from, until, r.value, d);
      if j < r.value {
        FirstIsRecord(zone, j, r.value);
      }
    }
    NoneMissed(zone, g, c, from, until, FirstDay(zone, from), r, d, e, j);
  }

  lemma SeenIsNotHidden(zone: Zone, g: Gregorian, c: Fields, from: int, until: Option<int>, d: int, e: int, k: int)
    requires c.Valid() && Due(zone, g, c, from, until, e, k) && Hidden(zone, e, k)
    ensures !Seen(zone, g, c, from, until, d, k)
  {
    if Matches(g, c, d, zone(k)) {
      SameDay(g, c, d, e, zone(k));
    }
  }

  lemma SameDay(g: Gregorian, c: Fields, d: int, e: int, w: int)
    requires c.Valid() && Matches(g, c, d, w) && Matches(g, c, e, w)
    ensures d == e
  {
    MatchIsOnDay(g, c, d, w);
    MatchIsOnDay(g, c, e, w);
  }

  /** Whether an answer comes too late is decided before the search: by what is due, hidden and seen. */
  lemma HiddenBehindTheAnswer(zone: Zone, g: Gregorian, c: Fields, from: int, until: Option<int>, r: Option<int>, d: int)
    requires c.Valid() && Regular(zone) && Barren(zone, g, c, from, until, FirstDay(zone, from), d)
    requires r.Some? ==> d <= FirstDay(zone, from) + HORIZON && LeastOnDay(zone, g, c, from, until, d, r.value)
    requires r.None? ==> d > FirstDay(zone, from) + HORIZON || (until.Some? && (d - 1) * DAY > until.value)
    ensures NothingHidden(zone, g, c, from, until, r) <==> HiddenAreOvertaken(zone, g, c, from, until)
  {
    forall e, k | Due(zone, g, c, from, until, e, k) && e <= FirstDay(zone, from) + HORIZON && Hidden(zone, e, k)
      ensures r.Some? && r.value <= k <==> Overtaken(zone, g, c, from, until, k)
    {
      if r.Some? && r.value <= k {
        AnswerIsSeen(zone, g, c, from, until, r.value, d);
        SeenIsNotHidden(zone, g, c, from, until, d, e, k);
      }
      if Overtaken(zone, g, c, from, until, k) {
        var b, j :| Seen(zone, g, c, from, until, b, j) && j < k;
        SeenIsNotMissed(zone, g, c, from, until, r, d, b, j);
      }
    }
  }

  lemma NoneMissed(zone: Zone, g: Gregorian, c: Fields, from: int, until: Option<int>, first: int, r: Option<int>,
      d: int, e: int, k: int)
    requires Due(zone, g, c, from, until, e, k) && OnDay(zone(k), e) && Barren(zone, g, c, from, until, first, d)
    requires first <= e && (e - 1) * DAY <= k * MINUTE
    requires e <= first + HORIZON && !(r.Some? && r.value <= k) ==> Accepted(zone, from, until, e, zone(k)) == Some(k)
    requires r.Some? ==> d <= first + HORIZON && LeastOnDay(zone, g, c, from, until, d, r.value) && OnDay(zone(r.value), d)
    requires r.Some? && k < r.value ==> zone(k) < zone(r.value)
    requires r.None? ==> d > first + HORIZON || (until.Some? && (d - 1) * DAY > until.value)
    ensures e <= first + HORIZON ==> r.Some?
    ensures r.Some? ==> r.value <= k
  {
    if e <= first + HORIZON && !(r.Some? && r.value <= k) {
      NotPassed(zone, g, c, from, until, first, d, e, k);
    }
  }

  /** A day with an accepted minute was not passed over, and no answer of that day is later. */
  lemma NotPassed(zone: Zone, g: Gregorian, c: Fields, from: int, until: Option<int>, first: int, d: int, e: int, k: int)
    requires Barren(zone, g, c, from, until, first, d) && first <= e
    requires Matches(g, c, e, zone(k)) && Accepted(zone, from, until, e, zone(k)) == Some(k)
    ensures d <= e
    ensures forall best :: d == e && LeastOnDay(zone, g, c, from, until, d, best) ==> best <= k
  {
    assert !Empty(zone, g, c, from, until, e);
  }

  /** Day e is searched before the end is known to have passed. */
  predicate BeforeEnd(until: Option<int>, e: int) {
    until.Some? ==> (e - 1) * DAY <= until.value
  }

  /**
   * Late switches do no harm on days that do not match the fields, that lie past the end, or that come
   * after the day of some seen minute: `last` is such a day, or the horizon.
   */
  lemma LateSwitchesElsewhereDoNotMatter(zone: Zone, g: Gregorian, c: Fields, from: int, until: Option<int>, last: int)
    requires c.Valid() && Regular(zone)
    requires last >= FirstDay(zone, from) + HORIZON || exists j :: Seen(zone, g, c, from, until, last, j)
    requires forall e :: FirstDay(zone, from) <= e <= last && DayMatches(g, c, e) && BeforeEnd(until, e) ==> !LateSwitch(zone, e)
    ensures HiddenAreOvertaken(zone, g, c, from, until)
  {
    forall e, k | Due(zone, g, c, from, until, e, k) && e <= FirstDay(zone, from) + HORIZON && Hidden(zone, e, k)
      ensures Overtaken(zone, g, c, from, until, k)
    {
      HiddenIsLate(zone, g, c, from, until, e, k);
      var j :| Seen(zone, g, c, from, until, last, j);
      EarlierDayFirst(zone, g, c, from, until, last, j, e, k);
    }
  }

  lemma HiddenIsLate(zone: Zone, g: Gregorian, c: Fields, from: int, until: Option<int>, e: int, k: int)
    requires c.Valid() && Regular(zone) && Due(zone, g, c, from, until, e, k) && Hidden(zone, e, k)
    ensures FirstDay(zone, from) <= e && DayMatches(g, c, e) && BeforeEnd(until, e) && LateSwitch(zone, e)
  {
    DueIsAccepted(zone, g, c, from, until, e, k);
    MatchIsOnDay(g, c, e, zone(k));
  }

  /** Of two due minutes the one of the earlier day comes first. */
  lemma EarlierDayFirst(zone: Zone, g: Gregorian, c: Fields, from: int, until: Option<int>, d: int, j: int, e: int, k: int)
    requires c.Valid() && Regular(zone) && Due(zone, g, c, from, until, d, j) && Due(zone, g, c, from, until, e, k) && d < e
    ensures j < k
  {
    MatchIsOnDay(g, c, d, zone(j));
    MatchIsOnDay(g, c, e, zone(k));
    if k < j {
      FirstIsRecord(zone, k, j);
    }
  }

  // ---------------------------------------------------------------- intervals and triggers

  function NextInterval(start: int, interval: int, after: int): int
    requires interval > 0
  {
    start + Max(0, (after - start) / interval + 1) * interval
  }

  lemma FloorBounds(x: int, y: int)
    requires y > 0
    ensures x / y * y <= x < x / y * y + y
  {
  }

  /** The least start + k * interval after the given instant, k counted from zero. */
  lemma IntervalIsLeast(start: int, interval: int, after: int) returns (k: nat)
    requires interval > 0
    ensures NextInterval(start, interval, after) == Nth(start, interval, k) > after
    ensures forall j: nat :: Nth(start, interval, j) > after ==> k <= j && Nth(start, interval, k) <= Nth(start, interval, j)
  {
    var q := (after - start) / interval;
    FloorBounds(after - start, interval);
    k := Max(0, q + 1);
    NthIsLinear(start, interval, k);
    if k > 0 {
      NthIsLinear(start, interval, k - 1);
      assert (k - 1) * interval == q * interval && k * interval == q * interval + interval;
    }
    forall j: nat | Nth(start, interval, j) > after ensures k <= j && Nth(start, interval, k) <= Nth(start, interval, j) {
      if j < k - 1 {
        NthIncreases(start, interval, j, k - 1);
      } else if k < j {
        NthIncreases(start, interval, k, j);
      }
    }
  }

  datatype Trigger = At(at: int)
                   | Every(seconds: int, start: int, until: Option<int>)
                   | Cron(fields: Fields, zone: Zone, start: int, until: Option<int>)

  ghost predicate ValidTrigger(t: Trigger) {
    match t
    case At(_) => true
    case Every(seconds, start, until) => seconds >= 60 && (until.Some? ==> start <= until.value)
    case Cron(fields, zone, start, until) => fields.Valid() && (until.Some? ==> start <= until.value)
  }

  /** An instant the trigger names: the occurrences a schedule may run at. */
  ghost predicate Occurs(g: Gregorian, t: Trigger, at: int) {
    match t
    case At(one) => at == one
    case Every(seconds, start, until) => (until.Some? ==> at <= until.value) && exists k: nat :: at == Nth(start, seconds * 1000, k)
    case Cron(fields, zone, start, until) =>
      exists k, d :: at == k * MINUTE && InWindow(start, until, k) && Matches(g, fields, d, zone(k))
  }

  method NextOccurrence(g: Gregorian, t: Trigger, after: int) returns (r: Option<int>)
    requires ValidTrigger(t)
    ensures r.Some? ==> r.value > after && Occurs(g, t, r.value)
    ensures !t.Cron? ==> forall at :: at > after && Occurs(g, t, at) ==> r.Some? && r.value <= at
    ensures t.Cron? && Regular(t.zone) ==>
              exists k: Option<int> ::
                && r == (if k.Some? then Some(k.value * MINUTE) else None)
                && (LeastDue(t.zone, g, t.fields, Max(after + 1, t.start), t.until, k)
                    <==> HiddenAreOvertaken(t.zone, g, t.fields, Max(after + 1, t.start), t.until))
  {
    match t
    case At(at) =>
      return if at > after then Some(at) else None;
    case Every(seconds, start, until) =>
      var interval := seconds * 1000;
      var next := NextInterval(start, interval, after);
      ghost var k := IntervalIsLeast(start, interval, after);
      return if until.Some? && next > until.value then None else Some(next);
    case Cron(fields, zone, start, until) =>
      var k := NextCron(zone, g, fields, start, until, after);
      return if k.Some? then Some(k.value * MINUTE) else None;
  }
}
