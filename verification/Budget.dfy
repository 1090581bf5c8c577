/**
 * Admission of application events to a granted task. Runs are counted in fixed windows of one hour,
 * over the task's life and while they are outstanding.
 */
module Budget {
  import opened Sequences

  const HOUR := 3_600_000

  datatype Limits = Limits(outstanding: nat, hourly: nat, total: nat)

  /** An admitted event: when, and in the window that began when. */
  datatype Admission = Admission(event: string, at: int, window: int)

  // ---------------------------------------------------------------- windows

  /** The window is that of the last entry, or begins after its end. */
  predicate Follows(log: seq<Admission>, window: int) {
    log == [] || log[|log| - 1].window == window || log[|log| - 1].window + HOUR <= window
  }

  /** Windows come in order and do not overlap; each entry lies in its own. */
  predicate Windowed(log: seq<Admission>) {
    log == [] ||
    var (init, last) := (log[..|log| - 1], log[|log| - 1]);
    Windowed(init) && last.window <= last.at < last.window + HOUR && Follows(init, last.window)
  }

  function InWindow(log: seq<Admission>, window: int): nat {
    if log == [] then 0
    else InWindow(log[..|log| - 1], window) + if log[|log| - 1].window == window then 1 else 0
  }

  /** No window holds more entries than that. */
  predicate AtMost(log: seq<Admission>, most: nat) {
    log == [] || (AtMost(log[..|log| - 1], most) && InWindow(log, log[|log| - 1].window) <= most)
  }

  lemma {:induction false} AtMostInAny(log: seq<Admission>, most: nat, window: int)
    requires AtMost(log, most)
    ensures InWindow(log, window) <= most
  {
    if log != [] {
      AtMostInAny(log[..|log| - 1], most, window);
    }
  }

  lemma {:induction false} WindowsApart(log: seq<Admission>, i: nat, j: nat)
    requires Windowed(log) && i <= j < |log|
    ensures log[i].window <= log[i].at < log[i].window + HOUR && log[j].window <= log[j].at < log[j].window + HOUR
    ensures log[i].window == log[j].window || log[i].window + HOUR <= log[j].window
  {
    var init := log[..|log| - 1];
    if j < |init| {
      WindowsApart(init, i, j);
    } else if i < j {
      WindowsApart(init, i, |init| - 1);
    }
  }

  predicate During(a: Admission, from_: int) {
    from_ <= a.at < from_ + 3_600_000
  }

  /** Admissions in the hour from an instant on. */
  function InHour(log: seq<Admission>, from_: int): nat {
    if log == [] then 0
    else InHour(log[..|log| - 1], from_) + if During(log[|log| - 1], from_) then 1 else 0
  }

  /** Of the admissions in that hour, the window of the first. */
  function FirstWindow(log: seq<Admission>, from_: int): (w: int)
    ensures (exists a :: a in log && During(a, from_)) ==> exists i :: 0 <= i < |log| && During(log[i], from_) && log[i].window == w
                                                                 && forall j :: 0 <= j < i ==> !During(log[j], from_)
  {
    if log == [] then 0
    else
      var init, last := log[..|log| - 1], log[|log| - 1];
      if exists a :: a in init && During(a, from_) then FirstWindow(init, from_) else last.window
  }

  lemma {:induction false} CountByWindows(log: seq<Admission>, from_: int, w1: int, w2: int)
    requires forall a :: a in log && During(a, from_) ==> a.window == w1 || a.window == w2
    ensures InHour(log, from_) <= InWindow(log, w1) + InWindow(log, w2)
  {
    if log != [] {
      CountByWindows(log[..|log| - 1], from_, w1, w2);
      assert log[|log| - 1] in log;
    }
  }

  ghost predicate OnlyWindows(log: seq<Admission>, from_: int, w1: int, w2: int) {
    forall a :: a in log && During(a, from_) ==> a.window == w1 || a.window == w2
  }

  /** An hour meets at most two windows. */
  lemma HourMeetsTwoWindows(log: seq<Admission>, from_: int)
    requires Windowed(log)
    ensures exists w1, w2 :: OnlyWindows(log, from_, w1, w2)
  {
    var w1 := FirstWindow(log, from_);
    if exists a :: a in log && During(a, from_) && a.window != w1 {
      var b :| b in log && During(b, from_) && b.window != w1;
      forall a | a in log && During(a, from_) ensures a.window == w1 || a.window == b.window {
        ThreeWindowsAreTooMany(log, from_, a, b);
      }
      assert OnlyWindows(log, from_, w1, b.window);
    } else {
      assert OnlyWindows(log, from_, w1, w1);
    }
  }

  lemma ThreeWindowsAreTooMany(log: seq<Admission>, from_: int, a: Admission, b: Admission)
    requires Windowed(log) && a in log && b in log && During(a, from_) && During(b, from_) && b.window != FirstWindow(log, from_)
    ensures a.window == FirstWindow(log, from_) || a.window == b.window
  {
    var i :| 0 <= i < |log| && During(log[i], from_) && log[i].window == FirstWindow(log, from_)
             && forall j :: 0 <= j < i ==> !During(log[j], from_);
    var j :| 0 <= j < |log| && log[j] == a;
    var k :| 0 <= k < |log| && log[k] == b;
    WindowsApart(log, i, j);
    WindowsApart(log, i, k);
    if j <= k {
      WindowsApart(log, j, k);
    } else {
      WindowsApart(log, k, j);
    }
  }

  /** When no window holds more than its limit, no hour holds more than twice as many. */
  lemma AnyHourIsBounded(log: seq<Admission>, hourly: nat, from_: int)
    requires Windowed(log) && AtMost(log, hourly)
    ensures InHour(log, from_) <= 2 * hourly
  {
    HourMeetsTwoWindows(log, from_);
    var w1, w2 :| OnlyWindows(log, from_, w1, w2);
    AtMostInAny(log, hourly, w1);
    AtMostInAny(log, hourly, w2);
    CountByWindows(log, from_, w1, w2);
  }

  /** The bound is met: a full window may end just before the next one fills. */
  lemma TwiceIsReached()
    ensures exists log, from_ :: Windowed(log) && AtMost(log, 1) && InHour(log, from_) == 2
  {
    var a, b := Admission("a", HOUR - 1, 0), Admission("b", HOUR, HOUR);
    var log := [a, b];
    assert log[..1] == [a] && [a][..0] == [];
    assert InWindow([a], 0) == InWindow([], 0) + 1 && InWindow([a], HOUR) == InWindow([], HOUR);
    assert Windowed([]) && Follows([], 0) && AtMost([], 1);
    assert Windowed([a]) && AtMost([a], 1);
    assert Windowed(log) && AtMost(log, 1);
    assert InHour([a], HOUR - 1) == 1;
    assert InHour(log, HOUR - 1) == 2;
  }

  // ---------------------------------------------------------------- the task

  datatype Budget = Budget(windowStartedAt: int, runs: nat, responses: nat, totalRuns: nat, totalResponses: nat)

  function Rolled(b: Budget, now: int): Budget {
    if now - b.windowStartedAt >= HOUR then b.(windowStartedAt := now, runs := 0, responses := 0) else b
  }

  function WithReply(b: Budget): Budget {
    b.(responses := b.responses + 1, totalResponses := b.totalResponses + 1)
  }

  datatype Verdict = Admitted | Duplicate | Refuse | Defer

  lemma {:induction false} NoneLater(log: seq<Admission>, window: int)
    requires Windowed(log) && (log != [] ==> log[|log| - 1].window < window)
    ensures InWindow(log, window) == 0
  {
    if log != [] {
      NoneLater(log[..|log| - 1], window);
    }
  }

  /** The window's counter is the number of entries in it, and no window holds more than its limit. */
  predicate WindowSound(log: seq<Admission>, window: int, count: nat, hourly: nat, clock: int) {
    Windowed(log) && window <= clock && Follows(log, window) && InWindow(log, window) == count && AtMost(log, hourly)
  }

  lemma WindowRolls(log: seq<Admission>, window: int, count: nat, hourly: nat, clock: int, now: int)
    requires WindowSound(log, window, count, hourly, clock) && clock <= now
    ensures WindowSound(log, window, count, hourly, now)
    ensures now - window >= HOUR ==> WindowSound(log, now, 0, hourly, now)
  {
    if now - window >= HOUR {
      NoneLater(log, now);
    }
  }

  lemma WindowFills(log: seq<Admission>, window: int, count: nat, hourly: nat, now: int, event: string)
    requires WindowSound(log, window, count, hourly, now) && now - window < HOUR && count < hourly
    ensures WindowSound(log + [Admission(event, now, window)], window, count + 1, hourly, now)
  {
    assert (log + [Admission(event, now, window)])[..|log|] == log;
  }

  function Events(log: seq<Admission>): seq<string> {
    if log == [] then [] else Events(log[..|log| - 1]) + [log[|log| - 1].event]
  }

  /** Counters, events and saved replies agree, within the limits. */
  ghost predicate Counted(limits: Limits, b: Budget, seen: seq<string>, log: seq<Admission>, replied: seq<Admission>, clock: int) {
    && NoRepeats(seen) && Events(log) == seen && b.totalRuns == |seen| == |log| <= limits.total
    && b.totalResponses == |replied| <= limits.total
    && WindowSound(log, b.windowStartedAt, b.runs, limits.hourly, clock)
    && WindowSound(replied, b.windowStartedAt, b.responses, limits.hourly, clock)
  }

  /** The ledger's runs are of admitted events, and not too many are outstanding. */
  ghost predicate Outstanding(limits: Limits, seen: seq<string>, known: set<string>, live: set<string>) {
    live <= known && (forall e :: e in known ==> e in seen) && |live| <= limits.outstanding
  }

  lemma RolledKeeps(limits: Limits, b: Budget, seen: seq<string>, log: seq<Admission>, replied: seq<Admission>,
      clock: int, now: int)
    requires Counted(limits, b, seen, log, replied, clock) && clock <= now
    ensures Counted(limits, b, seen, log, replied, now) && Counted(limits, Rolled(b, now), seen, log, replied, now)
    ensures now - Rolled(b, now).windowStartedAt < HOUR
  {
    WindowRolls(log, b.windowStartedAt, b.runs, limits.hourly, clock, now);
    WindowRolls(replied, b.windowStartedAt, b.responses, limits.hourly, clock, now);
  }

  lemma AdmissionKeeps(limits: Limits, b: Budget, seen: seq<string>, log: seq<Admission>, replied: seq<Admission>,
      now: int, event: string)
    requires Counted(limits, b, seen, log, replied, now)
    requires event !in seen && |seen| < limits.total && Rolled(b, now).runs < limits.hourly
    ensures var r := Rolled(b, now);
            Counted(limits, r.(runs := r.runs + 1, totalRuns := r.totalRuns + 1), seen + [event],
                    log + [Admission(event, now, r.windowStartedAt)], replied, now)
  {
    var r := Rolled(b, now);
    RolledKeeps(limits, b, seen, log, replied, now, now);
    assert (log + [Admission(event, now, r.windowStartedAt)])[..|log|] == log;
    WindowFills(log, r.windowStartedAt, r.runs, limits.hourly, now, event);
  }

  lemma ReplyKeeps(limits: Limits, b: Budget, seen: seq<string>, log: seq<Admission>, replied: seq<Admission>, now: int,
      run: string)
    requires Counted(limits, b, seen, log, replied, now) && Rolled(b, now).responses < limits.hourly
             && b.totalResponses < limits.total
    ensures var r := Rolled(b, now);
            Counted(limits, r.(responses := r.responses + 1, totalResponses := r.totalResponses + 1), seen, log,
                    replied + [Admission(run, now, r.windowStartedAt)], now)
  {
    var r := Rolled(b, now);
    RolledKeeps(limits, b, seen, log, replied, now, now);
    WindowFills(replied, r.windowStartedAt, r.responses, limits.hourly, now, run);
  }

  // ---------------------------------------------------------------- replies

  datatype Key = Key(run: string, name: string)

  /** A reply that was queued, and whether the grant was saved after it. */
  datatype Post = Post(key: Key, saved: bool)

  type Operations = map<Key, string>

  const MOST_REPLIES := 30

  /** What is remembered of the runs that may still reply. */
  function OfLive(operations: Operations, live: set<string>): Operations {
    map k | k in operations && k.run in live :: operations[k]
  }

  function OfRun(operations: Operations, run: string): set<Key> {
    set k | k in operations && k.run == run
  }

  function Saves(posts: seq<Post>): nat {
    if posts == [] then 0 else Saves(posts[..|posts| - 1]) + if posts[|posts| - 1].saved then 1 else 0
  }

  function Failures(posts: seq<Post>): nat {
    if posts == [] then 0 else Failures(posts[..|posts| - 1]) + if posts[|posts| - 1].saved then 0 else 1
  }

  function Times(posts: seq<Post>, key: Key): nat {
    if posts == [] then 0 else Times(posts[..|posts| - 1], key) + if posts[|posts| - 1].key == key then 1 else 0
  }

  /** How often a save behind this reply failed. */
  function FailedTimes(posts: seq<Post>, key: Key): nat {
    if posts == [] then 0 else FailedTimes(posts[..|posts| - 1], key) + if posts[|posts| - 1] == Post(key, false) then 1 else 0
  }

  function SavedKeys(posts: seq<Post>): set<Key> {
    if posts == [] then {} else SavedKeys(posts[..|posts| - 1]) + if posts[|posts| - 1].saved then {posts[|posts| - 1].key} else {}
  }

  /** Nothing was queued under a key after a save under it. */
  predicate NothingAfterSaves(posts: seq<Post>) {
    posts == [] || (NothingAfterSaves(posts[..|posts| - 1]) && posts[|posts| - 1].key !in SavedKeys(posts[..|posts| - 1]))
  }

  /** Saved replies are remembered as long as their run lives, and nothing else is remembered. */
  ghost predicate Posted(posts: seq<Post>, operations: Operations, known: set<string>, live: set<string>) {
    && NothingAfterSaves(posts) && (forall k :: k in operations ==> k in SavedKeys(posts))
    && forall k :: k in SavedKeys(posts) ==> k.run in known && (k in operations || k.run !in live)
  }

  lemma PostKeeps(posts: seq<Post>, operations: Operations, known: set<string>, live: set<string>, key: Key,
      text: string, saved: bool)
    requires Posted(posts, operations, known, live) && live <= known && key.run in live && key !in operations
    ensures Posted(posts + [Post(key, saved)], if saved then OfLive(operations, live)[key := text] else operations, known, live)
  {
    assert (posts + [Post(key, saved)])[..|posts|] == posts;
  }

  /** One reply goes out once for each failed save behind it, and once more if it was saved. */
  lemma {:induction false} TimesByOutcome(posts: seq<Post>, key: Key)
    requires NothingAfterSaves(posts)
    ensures Times(posts, key) == FailedTimes(posts, key) + if key in SavedKeys(posts) then 1 else 0
  {
    if posts != [] {
      TimesByOutcome(posts[..|posts| - 1], key);
    }
  }

  lemma {:induction false} SavedSomewhere(posts: seq<Post>, key: Key)
    ensures key in SavedKeys(posts) <==> Post(key, true) in posts
  {
    if posts != [] {
      var init, last := posts[..|posts| - 1], posts[|posts| - 1];
      SavedSomewhere(init, key);
      assert forall p :: p in posts <==> p in init || p == last;
    }
  }

  lemma {:induction false} SavesAndFailures(posts: seq<Post>)
    ensures |posts| == Saves(posts) + Failures(posts)
  {
    if posts != [] {
      SavesAndFailures(posts[..|posts| - 1]);
    }
  }

  lemma AppendPost(posts: seq<Post>, p: Post)
    ensures Saves(posts + [p]) == Saves(posts) + if p.saved then 1 else 0
  {
    assert (posts + [p])[..|posts|] == posts;
  }

  datatype Answer = Queued | Remembered | Rejected

  class TaskGrant {
    const limits: Limits
    var active: bool
    var budget: Budget
    var seenEvents: seq<string>
    /** The runs of this task in the ledger: all of them, and those queued or running. */
    var known: set<string>
    var live: set<string>
    var operations: Operations
    ghost var log: seq<Admission>
    ghost var replied: seq<Admission>
    ghost var posts: seq<Post>
    var clock: int

    constructor (limits: Limits, now: int)
      ensures Valid() && this.limits == limits && clock == now && log == [] && posts == [] && seenEvents == [] && active
    {
      this.limits, active, clock := limits, true, now;
      budget := Budget(now, 0, 0, 0, 0);
      seenEvents, known, live, operations := [], {}, {}, map[];
      log, replied, posts := [], [], [];
    }

    ghost predicate Valid()
      reads this
    {
      && Counted(limits, budget, seenEvents, log, replied, clock) && Outstanding(limits, seenEvents, known, live)
      && Posted(posts, operations, known, live) && Saves(posts) == |replied|
    }

    /** What becomes of an event; `granted` says that the grant and the application still stand. */
    function Judged(event: string, granted: bool): Verdict
      reads this
    {
      if event in known || (active && event in seenEvents) then Duplicate
      else if !active || !granted || budget.totalRuns >= limits.total then Refuse
      else if Rolled(budget, clock).runs >= limits.hourly || |live| >= limits.outstanding then Defer
      else Admitted
    }

    /** An event is admitted once, within the grant, and only while every limit leaves room. */
    lemma AdmittedExactly(event: string, granted: bool)
      requires Valid()
      ensures Judged(event, granted).Admitted? <==>
                && event !in seenEvents && active && granted && |seenEvents| < limits.total
                && InWindow(log, Rolled(budget, clock).windowStartedAt) < limits.hourly && |live| < limits.outstanding
    {
      RolledKeeps(limits, budget, seenEvents, log, replied, clock, clock);
    }

    /** What is not admitted is a duplicate, is refused for good, or may be tried again later. */
    /** A window lasts an hour; the first look behind its end opens the next one, with nothing counted in it. */
    lemma WindowLastsAnHour(b: Budget, now: int)
      ensures var r := Rolled(b, now);
              && (now < b.windowStartedAt + 3_600_000 ==> r == b)
              && (b.windowStartedAt + 3_600_000 <= now ==> r == Budget(now, 0, 0, b.totalRuns, b.totalResponses))
    {
    }

    lemma JudgedExactly(event: string, granted: bool)
      requires Valid()
      ensures Judged(event, granted).Duplicate? <==> event in known || (active && event in seenEvents)
      ensures Judged(event, granted).Refuse? <==>
                event !in known && !(active && event in seenEvents) && (!active || !granted || |seenEvents| == limits.total)
      ensures Judged(event, granted).Defer? <==>
                && event !in seenEvents && active && granted && |seenEvents| < limits.total
                && (InWindow(log, Rolled(budget, clock).windowStartedAt) == limits.hourly || |live| == limits.outstanding)
    {
      RolledKeeps(limits, budget, seenEvents, log, replied, clock, clock);
      AtMostInAny(log, limits.hourly, Rolled(budget, clock).windowStartedAt);
    }

    /** One application event; `created` says that the run was made after the admission was saved. */
    method ApplicationEvent(event: string, granted: bool, created: bool) returns (verdict: Verdict)
      requires Valid()
      modifies this`active, this`budget, this`seenEvents, this`log, this`known, this`live
      ensures Valid() && verdict == old(Judged(event, granted))
      ensures active == (old(active) && !(verdict.Refuse? && granted))
      ensures verdict.Admitted? ==> log == old(log) + [Admission(event, clock, Rolled(old(budget), clock).windowStartedAt)]
      ensures !verdict.Admitted? ==> log == old(log) && budget == old(budget)
      ensures seenEvents == if verdict.Admitted? then old(seenEvents) + [event] else old(seenEvents)
      ensures if verdict.Admitted? && created then live == old(live) + {event} && known == old(known) + {event}
              else live == old(live) && known == old(known)
    {
      if event in known || (active && event in seenEvents) {
        return Duplicate;
      }
      if !active || !granted {
        return Refuse;
      }
      if budget.totalRuns >= limits.total {
        Revoke();
        return Refuse;
      }
      var rolled := Rolled(budget, clock);
      if rolled.runs >= limits.hourly || |live| >= limits.outstanding {
        return Defer;
      }
      AdmitRun(event, rolled, created);
      return Admitted;
    }

    /** The clock that the next call reads. */
    method Tick(now: int)
      requires Valid() && clock <= now
      modifies this`clock
      ensures Valid() && clock == now
    {
      clock := now;
    }

    method Revoke()
      requires Valid()
      modifies this`active
      ensures Valid() && !active
    {
      active := false;
    }

    method Admit(event: string, rolled: Budget)
      requires Valid() && rolled == Rolled(budget, clock)
      requires event !in seenEvents && rolled.totalRuns < limits.total && rolled.runs < limits.hourly
      modifies this`budget, this`seenEvents, this`log
      ensures Valid() && seenEvents == old(seenEvents) + [event]
              && log == old(log) + [Admission(event, clock, rolled.windowStartedAt)]
      ensures budget == rolled.(runs := rolled.runs + 1, totalRuns := rolled.totalRuns + 1)
    {
      AdmissionKeeps(limits, budget, seenEvents, log, replied, clock, event);
      assert Outstanding(limits, seenEvents + [event], known, live);
      budget := rolled.(runs := rolled.runs + 1, totalRuns := rolled.totalRuns + 1);
      log := log + [Admission(event, clock, rolled.windowStartedAt)];
      seenEvents := seenEvents + [event];
    }

    /** The admission is saved first; the run may fail to be made, and the event stays admitted. */
    method AdmitRun(event: string, rolled: Budget, created: bool)
      requires Valid() && rolled == Rolled(budget, clock)
      requires event !in seenEvents && rolled.totalRuns < limits.total && rolled.runs < limits.hourly && |live| < limits.outstanding
      modifies this`budget, this`seenEvents, this`log, this`known, this`live
      ensures Valid() && seenEvents == old(seenEvents) + [event]
              && log == old(log) + [Admission(event, clock, rolled.windowStartedAt)]
      ensures if created then live == old(live) + {event} && known == old(known) + {event}
              else live == old(live) && known == old(known)
    {
      Admit(event, rolled);
      AddRun(event, created);
    }

    method AddRun(event: string, created: bool)
      requires Valid() && event in seenEvents && event !in known && |live| < limits.outstanding
      modifies this`known, this`live
      ensures Valid()
      ensures if created then live == old(live) + {event} && known == old(known) + {event}
              else live == old(live) && known == old(known)
    {
      if created {
        known, live := known + {event}, live + {event};
      }
    }

    /** Whether a reply goes out: in a live run, within both budgets and the run's own limit. */
    predicate MayReply(run: string, authorized: bool)
      reads this
    {
      && active && authorized && run in live
      && Rolled(budget, clock).responses < limits.hourly && budget.totalResponses < limits.total
      && |OfRun(OfLive(operations, live), run)| < MOST_REPLIES
    }

    /** The limits of a reply, of saved ones by the window and in all, and of thirty for one run. */
    lemma MayReplyExactly(run: string, authorized: bool)
      requires Valid()
      ensures MayReply(run, authorized) <==>
                && active && authorized && run in live
                && InWindow(replied, Rolled(budget, clock).windowStartedAt) < limits.hourly && |replied| < limits.total
                && |set k | k in operations && k.run == run| < 30
    {
      RolledKeeps(limits, budget, seenEvents, log, replied, clock, clock);
      if run in live {
        assert OfRun(OfLive(operations, live), run) == set k | k in operations && k.run == run;
      }
    }

    /**
     * A reply is queued first, then counted and remembered with the grant; `saved` is false when that
     * save fails. A known key is not queued again, and refused for another text.
     */
    method Reply(run: string, name: string, text: string, authorized: bool, saved: bool) returns (answer: Answer)
      requires Valid()
      modifies this`budget, this`replied, this`posts, this`operations
      ensures Valid()
      ensures var key := Key(run, name);
              && (answer.Remembered? <==>
                    old(active) && authorized && run in old(live) && key in old(operations) && old(operations)[key] == text)
              && (answer.Queued? <==> Post(key, true) !in old(posts) && old(MayReply(run, authorized)))
              && posts == old(posts) + (if answer.Queued? then [Post(key, saved)] else [])
              && operations == (if answer.Queued? && saved then OfLive(old(operations), live)[key := text] else old(operations))
              && budget == if answer.Queued? && saved then WithReply(Rolled(old(budget), clock)) else old(budget)
    {
      var key := Key(run, name);
      QueuedAgainExactly(run, name, authorized);
      if !active || !authorized || run !in live {
        return Rejected;
      }
      if key in operations {
        return if operations[key] == text then Remembered else Rejected;
      }
      var rolled := Rolled(budget, clock);
      if rolled.responses >= limits.hourly || rolled.totalResponses >= limits.total {
        return Rejected;
      }
      var kept := OfLive(operations, live);
      if |OfRun(kept, run)| >= MOST_REPLIES {
        return Rejected;
      }
      Queue(key, text, rolled, saved);
      return Queued;
    }

    method Queue(key: Key, text: string, rolled: Budget, saved: bool)
      requires Valid() && rolled == Rolled(budget, clock) && key.run in live && key !in operations
      requires rolled.responses < limits.hourly && rolled.totalResponses < limits.total
      modifies this`budget, this`replied, this`posts, this`operations
      ensures Valid() && posts == old(posts) + [Post(key, saved)]
      ensures operations == if saved then OfLive(old(operations), live)[key := text] else old(operations)
      ensures budget == if saved then WithReply(rolled) else old(budget)
    {
      PostKeeps(posts, operations, known, live, key, text, saved);
      AppendPost(posts, Post(key, saved));
      posts := posts + [Post(key, saved)];
      if saved {
        ReplyKeeps(limits, budget, seenEvents, log, replied, clock, key.run);
        budget := WithReply(rolled);
        replied := replied + [Admission(key.run, clock, rolled.windowStartedAt)];
        operations := OfLive(operations, live)[key := text];
      }
    }

    method RunEnds(event: string)
      requires Valid()
      modifies this`live
      ensures Valid() && live == old(live) - {event}
    {
      live := live - {event};
    }

    /** What the owner granted holds at every moment, of runs and of the replies that were saved. */
    lemma GrantHolds(from_: int)
      requires Valid()
      ensures NoRepeats(seenEvents) && |log| <= limits.total && |live| <= limits.outstanding
              && InHour(log, from_) <= 2 * limits.hourly
      ensures |replied| <= limits.total && InHour(replied, from_) <= 2 * limits.hourly
    {
      AnyHourIsBounded(log, limits.hourly, from_);
      AnyHourIsBounded(replied, limits.hourly, from_);
    }

    /** A reply that is tried is queued, for the first time or again, exactly when none under its key was ever saved. */
    lemma QueuedAgainExactly(run: string, name: string, authorized: bool)
      requires Valid()
      ensures Key(run, name) !in operations && MayReply(run, authorized)
              <==> Post(Key(run, name), true) !in posts && MayReply(run, authorized)
    {
      SavedSomewhere(posts, Key(run, name));
    }

    /** So it goes out once for each save that failed behind it, and once more when one succeeded. */
    lemma TimesExactly(key: Key)
      requires Valid()
      ensures Times(posts, key) == FailedTimes(posts, key) + if Post(key, true) in posts then 1 else 0
    {
      TimesByOutcome(posts, key);
      SavedSomewhere(posts, key);
    }

    /** What went out exceeds what the budget counts by the saves that failed, and by nothing else. */
    lemma QueuedBeyondTheBudget()
      requires Valid()
      ensures |posts| == budget.totalResponses + Failures(posts) <= limits.total + Failures(posts)
    {
      SavesAndFailures(posts);
    }
  }
}
