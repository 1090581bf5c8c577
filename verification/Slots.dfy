/**
 * Places for running clients: one in the foreground, a limited number in the background. Starting a
 * run, settling an ended client and advancing to the next setup are sections of one lock; a client
 * ends whenever it likes.
 */
module Slots {
  import opened Options

  datatype Run = Run(number: nat, scheduled: bool)

  datatype Status = Queued | Running | Done

  /**
   * A client process: alive, closed but not yet settled, settled with a further setup to come, or
   * finished. A stray is alive, but nothing waits for it.
   */
  datatype Phase = Alive | Closed | Advancing | Finished | Stray

  datatype Child = Child(run: Run, phase: Phase)

  datatype State = State(ledger: map<Run, Status>, active: Option<nat>, background: map<Run, nat>, children: seq<Child>)

  /**
   * `raced`: a quota retry is made outside the lock, so that it may requeue a run that was started
   * since the retry looked at it. The relay makes its retries inside the lock.
   */
  datatype Env = Env(concurrency: nat, raced: bool)

  /** A launch that leaves its client behind failed when the client had its place already. */
  datatype Launch = Launched | FailedFor(again: bool) | LeavesBehind

  datatype Step = Enqueue(new_: Run)
                | Start(run: Run, launch: Launch)
                | Exit(child: nat)
                | Settle(closed: nat, continues: bool)
                | Advance(settled: nat, next: Option<Launch>)
                | Requeue(again: Run)

  predicate Lives(phase: Phase) {
    phase.Alive? || phase.Stray?
  }

  /** Something waits for the client, or goes on with its run. */
  predicate Watched(phase: Phase) {
    !phase.Finished? && !phase.Stray?
  }

  predicate Foreground(s: State) {
    exists r :: r in s.ledger && !r.scheduled && s.ledger[r].Running?
  }

  predicate Free(env: Env, s: State, r: Run) {
    if r.scheduled then |s.background| < env.concurrency else s.active.None? && !Foreground(s)
  }

  predicate Enabled(env: Env, s: State, step: Step) {
    match step
    case Enqueue(r) => r !in s.ledger
    case Start(r, _) => r in s.ledger && s.ledger[r].Queued? && Free(env, s, r)
    case Exit(n) => n < |s.children| && Lives(s.children[n].phase)
    case Settle(n, _) => n < |s.children| && s.children[n].phase.Closed?
    case Advance(n, _) => n < |s.children| && s.children[n].phase.Advancing?
    case Requeue(r) => r in s.ledger && r.scheduled && (env.raced || !s.ledger[r].Running?)
  }

  /** A new client of the run, in the run's place. */
  function Placed(s: State, r: Run): State {
    var t := s.(children := s.children + [Child(r, Alive)], ledger := s.ledger[r := Running]);
    if r.scheduled then t.(background := s.background[r := |s.children|]) else t.(active := Some(|s.children|))
  }

  function Freed(s: State, r: Run): State {
    if r.scheduled then s.(background := s.background - {r}) else s.(active := None)
  }

  /** A launch that failed gives up the run's place, if it holds one. */
  function GivenUp(s: State, r: Run, again: bool): State {
    var t := s.(ledger := s.ledger[r := if again && r.scheduled then Queued else Done]);
    if r.scheduled then t.(background := s.background - {r})
    else if s.active.Some? && s.active.value < |s.children| && s.children[s.active.value].run == r then t.(active := None)
    else t
  }

  function Marked(s: State, n: nat, phase: Phase): State
    requires n < |s.children|
  {
    s.(children := s.children[n := s.children[n].(phase := phase)])
  }

  function Launching(s: State, r: Run, launch: Launch): State {
    match launch
    case Launched => Placed(s, r)
    case FailedFor(again) => GivenUp(s, r, again)
    case LeavesBehind => GivenUp(Marked(Placed(s, r), |s.children|, Stray), r, false)
  }

  function Ended(s: State, r: Run): State {
    Freed(s.(ledger := s.ledger[r := Done]), r)
  }

  function Apply(env: Env, s: State, step: Step): State
    requires Enabled(env, s, step)
  {
    match step
    case Enqueue(r) => s.(ledger := s.ledger[r := Queued])
    case Start(r, launch) => Launching(s, r, launch)
    case Exit(n) => Marked(s, n, if s.children[n].phase.Stray? then Finished else Closed)
    case Settle(n, continues) => if continues then Marked(s, n, Advancing) else Ended(Marked(s, n, Finished), s.children[n].run)
    case Advance(n, next) =>
      var t := Marked(s, n, Finished);
      if next.Some? then Launching(t, s.children[n].run, next.value) else Ended(t, s.children[n].run)
    case Requeue(r) => s.(ledger := s.ledger[r := Queued])
  }

  const NOTHING := State(map[], None, map[], [])

  predicate Runs(env: Env, s: State, steps: seq<Step>, t: State)
    decreases |steps|
  {
    if steps == [] then s == t else Enabled(env, s, steps[0]) && Runs(env, Apply(env, s, steps[0]), steps[1..], t)
  }

  predicate Leaves(step: Step) {
    (step.Start? && step.launch.LeavesBehind?) || (step.Advance? && step.next == Some(LeavesBehind))
  }

  function Lefts(steps: seq<Step>): nat {
    if steps == [] then 0 else (if Leaves(steps[0]) then 1 else 0) + Lefts(steps[1..])
  }

  /** Some run of steps comes here, and so many of its launches left a client behind. */
  ghost predicate Reachable(env: Env, s: State, left: nat) {
    exists steps :: Runs(env, NOTHING, steps, s) && Lefts(steps) == left
  }

  // ---------------------------------------------------------------- places

  predicate Holds(s: State, n: nat)
    requires n < |s.children|
  {
    var r := s.children[n].run;
    if r.scheduled then r in s.background && s.background[r] == n else s.active == Some(n)
  }

  /** Whatever is watched holds its run's place, and places are held by nothing else. */
  ghost predicate PlacesSound(s: State) {
    && (forall n :: 0 <= n < |s.children| && Watched(s.children[n].phase) ==> Holds(s, n))
    && (forall r :: r in s.background ==> r.scheduled && s.background[r] < |s.children| && s.children[s.background[r]].run == r
                                          && Watched(s.children[s.background[r]].phase))
    && (s.active.Some? ==> s.active.value < |s.children| && !s.children[s.active.value].run.scheduled
                           && Watched(s.children[s.active.value].phase))
  }

  /** A run that holds a place is running, so it is not started again. */
  ghost predicate HoldersRun(env: Env, s: State) {
    && (s.active.Some? ==>
          && s.active.value < |s.children| && s.children[s.active.value].run in s.ledger
          && s.ledger[s.children[s.active.value].run].Running?)
    && (forall r :: r in s.background ==> r in s.ledger && (!env.raced ==> s.ledger[r].Running?))
  }

  ghost predicate Inv(env: Env, s: State) {
    PlacesSound(s) && HoldersRun(env, s) && |s.background| <= env.concurrency
  }

  /** Where a retry cannot hit a running run, or there is one place only, nothing is started twice. */
  predicate Safe(env: Env) {
    !env.raced || env.concurrency <= 1
  }

  lemma StartFindsNoPlace(env: Env, s: State, r: Run)
    requires Safe(env) && Inv(env, s) && r in s.ledger && s.ledger[r].Queued? && Free(env, s, r)
    ensures r !in s.background && (s.active.Some? ==> s.children[s.active.value].run != r)
  {
    if env.raced && r.scheduled {
      assert |s.background| == 0;
    }
  }

  lemma PlacedKeeps(env: Env, s: State, r: Run)
    requires PlacesSound(s) && HoldersRun(env, s) && r !in s.background && (r.scheduled ==> |s.background| < env.concurrency)
    requires |s.background| <= env.concurrency && (!r.scheduled ==> s.active.None?)
    ensures Inv(env, Placed(s, r))
  {
    PlacedSound(s, r);
    PlacedRuns(env, s, r);
    if r.scheduled {
      assert Placed(s, r).background.Keys == s.background.Keys + {r};
    }
  }

  lemma PlacedRuns(env: Env, s: State, r: Run)
    requires HoldersRun(env, s)
    ensures HoldersRun(env, Placed(s, r))
  {
    var t := Placed(s, r);
    assert forall n :: 0 <= n < |s.children| ==> t.children[n] == s.children[n];
  }

  lemma PlacedSound(s: State, r: Run)
    requires PlacesSound(s) && r !in s.background && (!r.scheduled ==> s.active.None?)
    ensures PlacesSound(Placed(s, r))
  {
    var t := Placed(s, r);
    assert forall n :: 0 <= n < |s.children| ==> t.children[n] == s.children[n];
  }

  /** The run's client is finished and its place is free. */
  ghost predicate Vacated(env: Env, s: State, t: State, r: Run) {
    && PlacesSound(t) && HoldersRun(env, t) && |t.background| <= |s.background|
    && t.background == s.background - {r} && t.active == if r.scheduled then s.active else None
  }

  lemma VacatedPlaces(env: Env, s: State, n: nat)
    requires Inv(env, s) && n < |s.children| && Holds(s, n)
    ensures PlacesSound(Freed(Marked(s, n, Finished), s.children[n].run))
  {
    var r := s.children[n].run;
    var t := Freed(Marked(s, n, Finished), r);
    assert forall m :: 0 <= m < |s.children| ==>
        t.children[m].run == s.children[m].run && (m != n ==> t.children[m] == s.children[m]);
  }

  lemma FinishedVacates(env: Env, s: State, n: nat)
    requires Inv(env, s) && n < |s.children| && Watched(s.children[n].phase)
    ensures var r := s.children[n].run; Vacated(env, s, Freed(Marked(s, n, Finished), r), r)
  {
    assert Holds(s, n);
    VacatedCount(env, s, n);
    VacatedPlaces(env, s, n);
  }

  lemma VacatedCount(env: Env, s: State, n: nat)
    requires Inv(env, s) && n < |s.children| && Watched(s.children[n].phase)
    ensures s.children[n].run.scheduled ==> |s.background - {s.children[n].run}| < |s.background|
    ensures !s.children[n].run.scheduled ==> s.background - {s.children[n].run} == s.background
  {
    var r := s.children[n].run;
    assert Holds(s, n);
    if r.scheduled {
      assert s.background.Keys == (s.background - {r}).Keys + {r};
    }
  }

  lemma LedgerOf(env: Env, s: State, r: Run, status: Status)
    requires Inv(env, s) && r !in s.background && (s.active.Some? ==> s.children[s.active.value].run != r)
    ensures Inv(env, s.(ledger := s.ledger[r := status]))
  {
  }

  lemma MarkKeeps(env: Env, s: State, n: nat, phase: Phase)
    requires Inv(env, s) && n < |s.children| && Watched(s.children[n].phase) && Watched(phase)
    ensures Inv(env, Marked(s, n, phase))
  {
    var t := Marked(s, n, phase);
    assert forall m :: 0 <= m < |s.children| ==> t.children[m].run == s.children[m].run;
  }

  /** Nothing waits for a stray, so nothing is settled when it ends. */
  lemma StrayEnds(env: Env, s: State, n: nat)
    requires Inv(env, s) && n < |s.children| && s.children[n].phase.Stray?
    ensures Inv(env, Marked(s, n, Finished))
  {
    var t := Marked(s, n, Finished);
    assert forall m :: 0 <= m < |s.children| ==> t.children[m].run == s.children[m].run;
  }

  lemma EndKeeps(env: Env, s: State, n: nat)
    requires Inv(env, s) && n < |s.children| && Watched(s.children[n].phase)
    ensures Inv(env, Ended(Marked(s, n, Finished), s.children[n].run))
  {
    var r := s.children[n].run;
    var t := Freed(Marked(s, n, Finished), r);
    FinishedVacates(env, s, n);
    LedgerOf(env, t, r, Done);
    assert Ended(Marked(s, n, Finished), r) == t.(ledger := t.ledger[r := Done]);
  }

  /** The finished client's place is left and taken again by the next one. */
  lemma RelaunchKeeps(env: Env, s: State, n: nat)
    requires Inv(env, s) && n < |s.children| && Watched(s.children[n].phase)
    ensures Inv(env, Placed(Marked(s, n, Finished), s.children[n].run))
  {
    var r, m := s.children[n].run, Marked(s, n, Finished);
    FinishedVacates(env, s, n);
    VacatedCount(env, s, n);
    PlacedKeeps(env, Freed(m, r), r);
    TakenAgain(m, r);
  }

  lemma TakenAgain(s: State, r: Run)
    ensures Placed(Freed(s, r), r) == Placed(s, r)
  {
    assert (s.background - {r})[r := |s.children|] == s.background[r := |s.children|];
  }

  lemma GiveUpKeeps(env: Env, s: State, n: nat, again: bool)
    requires Inv(env, s) && n < |s.children| && Watched(s.children[n].phase)
    ensures Inv(env, GivenUp(Marked(s, n, Finished), s.children[n].run, again))
  {
    var r, m := s.children[n].run, Marked(s, n, Finished);
    var t, status := Freed(m, r), GivenUp(m, r, again).ledger[r];
    assert Holds(s, n) && m.children[n].run == r;
    FinishedVacates(env, s, n);
    LedgerOf(env, t, r, status);
    assert GivenUp(m, r, again) == t.(ledger := t.ledger[r := status]);
  }

  /** A client that is left behind is there beside what a failed launch gives up. */
  function WithStray(s: State, r: Run): State {
    s.(children := s.children + [Child(r, Stray)])
  }

  lemma StrayKeeps(env: Env, s: State, r: Run)
    requires Inv(env, s)
    ensures Inv(env, WithStray(s, r))
  {
    assert forall n :: 0 <= n < |s.children| ==> WithStray(s, r).children[n] == s.children[n];
  }

  lemma LeftIsGivenUp(s: State, r: Run)
    requires !r.scheduled && s.active.Some? ==> s.active.value < |s.children| && s.children[s.active.value].run == r
    ensures Launching(s, r, LeavesBehind) == WithStray(GivenUp(s, r, false), r)
  {
    assert r.scheduled ==> s.background[r := |s.children|] - {r} == s.background - {r};
    assert Marked(Placed(s, r), |s.children|, Stray).children == s.children + [Child(r, Stray)];
    assert s.ledger[r := Running][r := Done] == s.ledger[r := Done];
  }

  lemma StartFails(env: Env, s: State, r: Run, again: bool)
    requires Safe(env) && Inv(env, s) && r in s.ledger && s.ledger[r].Queued? && Free(env, s, r)
    ensures Inv(env, GivenUp(s, r, again))
  {
    StartFindsNoPlace(env, s, r);
    var status := GivenUp(s, r, again).ledger[r];
    LedgerOf(env, s, r, status);
    assert s.background - {r} == s.background;
    assert GivenUp(s, r, again) == s.(ledger := s.ledger[r := status]);
  }

  lemma StartKeeps(env: Env, s: State, r: Run, launch: Launch)
    requires Safe(env) && Inv(env, s) && Enabled(env, s, Start(r, launch))
    ensures Inv(env, Launching(s, r, launch))
  {
    match launch
    case Launched =>
      StartFindsNoPlace(env, s, r);
      PlacedKeeps(env, s, r);
    case FailedFor(again) => StartFails(env, s, r, again);
    case LeavesBehind =>
      StartFails(env, s, r, false);
      LeftIsGivenUp(s, r);
      StrayKeeps(env, GivenUp(s, r, false), r);
  }

  lemma RelaunchFailsOrNot(env: Env, s: State, n: nat, launch: Launch)
    requires Inv(env, s) && n < |s.children| && Watched(s.children[n].phase)
    ensures Inv(env, Launching(Marked(s, n, Finished), s.children[n].run, launch))
  {
    var r, m := s.children[n].run, Marked(s, n, Finished);
    match launch
    case Launched => RelaunchKeeps(env, s, n);
    case FailedFor(again) => GiveUpKeeps(env, s, n, again);
    case LeavesBehind =>
      GiveUpKeeps(env, s, n, false);
      assert Holds(s, n) && m.children[n].run == r;
      LeftIsGivenUp(m, r);
      StrayKeeps(env, GivenUp(m, r, false), r);
  }

  lemma StepKeeps(env: Env, s: State, step: Step)
    requires Safe(env) && Inv(env, s) && Enabled(env, s, step)
    ensures Inv(env, Apply(env, s, step))
  {
    match step
    case Enqueue(r) => LedgerOf(env, s, r, Queued);
    case Start(r, launch) => StartKeeps(env, s, r, launch);
    case Exit(n) => if s.children[n].phase.Stray? { StrayEnds(env, s, n); } else { MarkKeeps(env, s, n, Closed); }
    case Settle(n, continues) => if continues { MarkKeeps(env, s, n, Advancing); } else { EndKeeps(env, s, n); }
    case Advance(n, next) => if next.None? { EndKeeps(env, s, n); } else { RelaunchFailsOrNot(env, s, n, next.value); }
    case Requeue(r) =>
  }

  lemma {:induction false} RunKeeps(env: Env, s: State, steps: seq<Step>, t: State)
    requires Safe(env) && Inv(env, s) && Runs(env, s, steps, t)
    ensures Inv(env, t)
    decreases |steps|
  {
    if steps != [] {
      StepKeeps(env, s, steps[0]);
      RunKeeps(env, Apply(env, s, steps[0]), steps[1..], t);
    }
  }

  // ---------------------------------------------------------------- the bounds

  function InBackground(s: State, phases: set<Phase>): set<nat> {
    set n | 0 <= n < |s.children| && s.children[n].phase in phases && s.children[n].run.scheduled
  }

  /** The background clients that live, watched or not. */
  function AliveInBackground(s: State): set<nat> {
    InBackground(s, {Alive, Stray})
  }

  lemma {:induction false} FewValues(m: map<Run, nat>)
    ensures |m.Values| <= |m|
    decreases |m|
  {
    if m != map[] {
      var r :| r in m;
      var rest := m - {r};
      assert m.Keys == rest.Keys + {r};
      FewValues(rest);
      assert m.Values == rest.Values + {m[r]};
    }
  }

  lemma {:induction false} SubsetIsSmaller(a: set<nat>, b: set<nat>)
    requires a <= b
    ensures |a| <= |b|
  {
    if a != {} {
      var x :| x in a;
      SubsetIsSmaller(a - {x}, b - {x});
    }
  }

  /** A step makes one stray at most, and only by leaving it behind. */
  lemma StepStrays(env: Env, s: State, step: Step)
    requires Enabled(env, s, step)
    ensures |InBackground(Apply(env, s, step), {Stray})| <= |InBackground(s, {Stray})| + if Leaves(step) then 1 else 0
  {
    var before, after := InBackground(s, {Stray}), InBackground(Apply(env, s, step), {Stray});
    NewChildren(env, s, step);
    SubsetIsSmaller(after, if Leaves(step) then before + {|s.children|} else before);
  }

  /** Whoever is a stray after a step was one before, or was left behind by it. */
  lemma NewChildren(env: Env, s: State, step: Step)
    requires Enabled(env, s, step)
    ensures InBackground(Apply(env, s, step), {Stray}) <= InBackground(s, {Stray}) + if Leaves(step) then {|s.children|} else {}
  {
    match step
    case Enqueue(_) =>
    case Requeue(_) =>
    case Start(r, launch) => LaunchedStrays(s, r, launch);
    case Exit(n) => MarkedStrays(s, n, if s.children[n].phase.Stray? then Finished else Closed);
    case Settle(n, continues) => MarkedStrays(s, n, if continues then Advancing else Finished);
    case Advance(n, next) =>
      MarkedStrays(s, n, Finished);
      if next.Some? {
        LaunchedStrays(Marked(s, n, Finished), s.children[n].run, next.value);
      }
  }

  lemma MarkedStrays(s: State, n: nat, phase: Phase)
    requires n < |s.children| && !phase.Stray?
    ensures InBackground(Marked(s, n, phase), {Stray}) <= InBackground(s, {Stray})
  {
  }

  lemma LaunchedStrays(s: State, r: Run, launch: Launch)
    ensures InBackground(Launching(s, r, launch), {Stray})
            <= InBackground(s, {Stray}) + if launch.LeavesBehind? then {|s.children|} else {}
  {
    LaunchedChildren(s, r, launch);
  }

  lemma LaunchedChildren(s: State, r: Run, launch: Launch)
    ensures Launching(s, r, launch).children == s.children + match launch
            case Launched => [Child(r, Alive)]
            case FailedFor(_) => []
            case LeavesBehind => [Child(r, Stray)]
  {
  }

  lemma {:induction false} RunStrays(env: Env, s: State, steps: seq<Step>, t: State)
    requires Runs(env, s, steps, t)
    ensures |InBackground(t, {Stray})| <= |InBackground(s, {Stray})| + Lefts(steps)
    decreases |steps|
  {
    if steps != [] {
      StepStrays(env, s, steps[0]);
      RunStrays(env, Apply(env, s, steps[0]), steps[1..], t);
    }
  }

  /**
   * One watched client in the foreground, no more than the limit in the background, and in all no
   * more beyond the limit than were left behind; a run between two setups keeps its place.
   */
  lemma PlacesAreBounded(env: Env, s: State, left: nat)
    requires Safe(env) && Reachable(env, s, left)
    ensures forall n, m :: 0 <= n < m < |s.children| && s.children[n].phase == Alive && s.children[m].phase == Alive ==>
              s.children[n].run.scheduled || s.children[m].run.scheduled
    ensures |InBackground(s, {Alive})| <= env.concurrency && |AliveInBackground(s)| <= env.concurrency + left
    ensures forall n :: 0 <= n < |s.children| && s.children[n].phase.Advancing? ==> Holds(s, n)
  {
    var steps :| Runs(env, NOTHING, steps, s) && Lefts(steps) == left;
    RunKeeps(env, NOTHING, steps, s);
    RunStrays(env, NOTHING, steps, s);
    WatchedFit(env, s);
    AliveOrStray(s);
    forall n | 0 <= n < |s.children| && s.children[n].phase.Advancing? ensures Holds(s, n) {}
  }

  lemma AliveOrStray(s: State)
    ensures |AliveInBackground(s)| == |InBackground(s, {Alive})| + |InBackground(s, {Stray})|
  {
    assert AliveInBackground(s) == InBackground(s, {Alive}) + InBackground(s, {Stray});
  }

  lemma WatchedFit(env: Env, s: State)
    requires Inv(env, s)
    ensures |InBackground(s, {Alive})| <= env.concurrency
  {
    forall n | n in InBackground(s, {Alive}) ensures n in s.background.Values {
      assert Holds(s, n);
      assert s.background[s.children[n].run] == n;
    }
    FewValues(s.background);
    SubsetIsSmaller(InBackground(s, {Alive}), s.background.Values);
  }

  // ---------------------------------------------------------------- what a step does to a client and its run

  /** A client ends by its own exit only; what is watched is settled once, and goes on at most once. */
  lemma PhasesExactly(env: Env, s: State, step: Step, n: nat)
    requires Enabled(env, s, step) && n < |s.children|
    ensures var t := Apply(env, s, step);
            && n < |t.children| && t.children[n].run == s.children[n].run
            && var (was, now) := (s.children[n].phase, t.children[n].phase);
               if step == Exit(n) then (was == Alive && now == Closed) || (was == Stray && now == Finished)
               else if step.Settle? && step.closed == n then was == Closed && now == if step.continues then Advancing else Finished
               else if step.Advance? && step.settled == n then was == Advancing && now == Finished
               else now == was
  {
    match step
    case Start(r, launch) => LaunchedChildren(s, r, launch);
    case Advance(k, next) => if next.Some? { LaunchedChildren(Marked(s, k, Finished), s.children[k].run, next.value); }
    case _ =>
  }

  /** A failed launch queues scheduled work again when it is told to, and ends any other; no other run changes. */
  lemma FailedLaunchMeans(s: State, r: Run, again: bool)
    ensures var t := Launching(s, r, FailedFor(again));
            && r in t.ledger && t.ledger[r] == (if r.scheduled && again then Queued else Done)
            && (r.scheduled ==> t.background == s.background - {r}) && (!r.scheduled ==> t.background == s.background)
            && t.children == s.children && forall q :: q != r && q in s.ledger ==> q in t.ledger && t.ledger[q] == s.ledger[q]
    ensures r.scheduled ==> Launching(s, r, FailedFor(again)).active == s.active
  {
  }

  /** A running run has a client that is watched, but for those that a late retry hit. */
  ghost predicate RunningWatched(env: Env, s: State) {
    forall r :: r in s.ledger && s.ledger[r].Running? ==>
      if r.scheduled then env.raced || r in s.background
      else s.active.Some? && s.active.value < |s.children| && s.children[s.active.value].run == r
  }

  lemma LaunchKeepsWatched(env: Env, s: State, r: Run, launch: Launch)
    requires forall q :: q in s.ledger && s.ledger[q].Running? && q != r ==>
               if q.scheduled then env.raced || q in s.background
               else r.scheduled && s.active.Some? && s.active.value < |s.children| && s.children[s.active.value].run == q
    ensures RunningWatched(env, Launching(s, r, launch))
  {
    LaunchedChildren(s, r, launch);
  }

  lemma EndKeepsWatched(env: Env, s: State, r: Run)
    requires forall q :: q in s.ledger && s.ledger[q].Running? && q != r ==>
               if q.scheduled then env.raced || q in s.background
               else r.scheduled && s.active.Some? && s.active.value < |s.children| && s.children[s.active.value].run == q
    ensures RunningWatched(env, Ended(s, r))
  {
  }

  lemma StepKeepsWatched(env: Env, s: State, step: Step)
    requires Safe(env) && Inv(env, s) && RunningWatched(env, s) && Enabled(env, s, step)
    ensures RunningWatched(env, Apply(env, s, step))
  {
    match step
    case Start(r, launch) => LaunchKeepsWatched(env, s, r, launch);
    case Settle(n, continues) =>
      assert Holds(s, n);
      if !continues {
        EndKeepsWatched(env, Marked(s, n, Finished), s.children[n].run);
      }
    case Advance(n, next) =>
      assert Holds(s, n);
      var m, r := Marked(s, n, Finished), s.children[n].run;
      if next.Some? {
        LaunchKeepsWatched(env, m, r, next.value);
      } else {
        EndKeepsWatched(env, m, r);
      }
    case _ =>
  }

  lemma {:induction false} RunKeepsWatched(env: Env, s: State, steps: seq<Step>, t: State)
    requires Safe(env) && Inv(env, s) && RunningWatched(env, s) && Runs(env, s, steps, t)
    ensures Inv(env, t) && RunningWatched(env, t)
    decreases |steps|
  {
    if steps != [] {
      StepKeeps(env, s, steps[0]);
      StepKeepsWatched(env, s, steps[0]);
      RunKeepsWatched(env, Apply(env, s, steps[0]), steps[1..], t);
    }
  }

  function WatchedInBackground(s: State): set<nat> {
    InBackground(s, {Alive, Closed, Advancing})
  }

  lemma {:induction false} AsManyValues(m: map<Run, nat>)
    requires forall q, r :: q in m && r in m && m[q] == m[r] ==> q == r
    ensures |m.Values| == |m|
    decreases |m|
  {
    if m != map[] {
      var r :| r in m;
      var rest := m - {r};
      AsManyValues(rest);
      WithoutOne(m, r);
    }
  }

  lemma WithoutOne(m: map<Run, nat>, r: Run)
    requires r in m && forall q :: q in m && m[q] == m[r] ==> q == r
    ensures |m| == |m - {r}| + 1 && |m.Values| == |(m - {r}).Values| + 1
  {
    var rest := m - {r};
    assert m.Keys == rest.Keys + {r};
    assert m.Values == rest.Values + {m[r]};
    assert m[r] !in rest.Values;
  }

  lemma PlacesAreWatched(env: Env, s: State)
    requires Inv(env, s)
    ensures |s.background| == |WatchedInBackground(s)|
  {
    AsManyValues(s.background);
    forall n ensures n in s.background.Values <==> n in WatchedInBackground(s) {
      if n in WatchedInBackground(s) {
        assert Holds(s, n) && s.background[s.children[n].run] == n;
      }
    }
    assert s.background.Values == WatchedInBackground(s);
  }

  /**
   * A queued run may start exactly when a place is really free: scheduled work while fewer clients than
   * the limit are watched in the background, foreground work while none is watched in the foreground.
   */
  lemma StartsExactly(env: Env, s: State, left: nat, r: Run, launch: Launch)
    requires Safe(env) && Reachable(env, s, left)
    ensures Enabled(env, s, Start(r, launch)) <==>
              && r in s.ledger && s.ledger[r] == Queued
              && if r.scheduled then |WatchedInBackground(s)| < env.concurrency
                 else forall n :: 0 <= n < |s.children| && !s.children[n].run.scheduled ==>
                     s.children[n].phase !in {Alive, Closed, Advancing}
  {
    var steps :| Runs(env, NOTHING, steps, s) && Lefts(steps) == left;
    RunKeepsWatched(env, NOTHING, steps, s);
    PlacesAreWatched(env, s);
    ForegroundIsWatched(env, s);
  }

  lemma ForegroundIsWatched(env: Env, s: State)
    requires Inv(env, s) && RunningWatched(env, s)
    ensures s.active.None? && !Foreground(s) <==>
              forall n :: 0 <= n < |s.children| && !s.children[n].run.scheduled ==>
                  s.children[n].phase !in {Alive, Closed, Advancing}
  {
    if s.active.Some? {
      var n := s.active.value;
      WatchedPhases(s.children[n].phase);
      assert !s.children[n].run.scheduled && s.children[n].phase in {Alive, Closed, Advancing};
    } else {
      forall n | 0 <= n < |s.children| && !s.children[n].run.scheduled ensures s.children[n].phase !in {Alive, Closed, Advancing} {
        WatchedPhases(s.children[n].phase);
      }
    }
  }

  lemma WatchedPhases(phase: Phase)
    ensures Watched(phase) <==> phase in {Alive, Closed, Advancing}
  {
    assert phase.Alive? || phase.Closed? || phase.Advancing? || phase.Finished? || phase.Stray?;
  }

  // ---------------------------------------------------------------- when the limit is exceeded

  lemma {:induction false} OneMore(env: Env, s: State, steps: seq<Step>, t: State, step: Step)
    requires Runs(env, s, steps, t) && Enabled(env, t, step)
    ensures Runs(env, s, steps + [step], Apply(env, t, step))
    ensures Lefts(steps + [step]) == Lefts(steps) + if Leaves(step) then 1 else 0
    decreases |steps|
  {
    if steps != [] {
      OneMore(env, Apply(env, s, steps[0]), steps[1..], t, step);
      assert (steps + [step])[1..] == steps[1..] + [step];
    }
  }

  lemma ReachOne(env: Env, s: State, left: nat, step: Step) returns (t: State)
    requires Reachable(env, s, left) && Enabled(env, s, step)
    ensures Reachable(env, t, left + if Leaves(step) then 1 else 0) && t == Apply(env, s, step)
  {
    var steps :| Runs(env, NOTHING, steps, s) && Lefts(steps) == left;
    OneMore(env, NOTHING, steps, s, step);
    t := Apply(env, s, step);
  }

  /** A crowd: all clients live in the background, some of them beside the places taken. */
  ghost predicate Crowd(s: State, places: nat, beside: nat) {
    && |s.background| == places && |s.children| == places + beside
    && (forall n :: 0 <= n < |s.children| ==> Lives(s.children[n].phase) && s.children[n].run.scheduled)
    && (forall r :: r in s.ledger ==> r.number < |s.children|) && (forall r :: r in s.background ==> r in s.ledger)
  }

  lemma OneStarted(env: Env, r: Run) returns (s: State)
    requires env.concurrency >= 2 && r.scheduled
    ensures Reachable(env, s, 0) && s == State(map[r := Running], None, map[r := 0], [Child(r, Alive)])
  {
    NothingIsReached(env);
    s := ReachOne(env, NOTHING, 0, Enqueue(r));
    s := ReachOne(env, s, 0, Start(r, Launched));
  }

  lemma NothingIsReached(env: Env)
    ensures Reachable(env, NOTHING, 0)
  {
    assert Runs(env, NOTHING, [], NOTHING) && Lefts([]) == 0;
  }

  /** A run that was started is requeued by a late retry, and started again. */
  lemma TwoForOne(env: Env) returns (s: State)
    requires env.raced && env.concurrency >= 2
    ensures Reachable(env, s, 0) && Crowd(s, 1, 1)
  {
    var r := Run(0, true);
    s := OneStarted(env, r);
    s := ReachOne(env, s, 0, Requeue(r));
    s := ReachOne(env, s, 0, Start(r, Launched));
    assert s.background == map[r := 1];
  }

  /** One more run is enqueued and started, with its place or left behind. */
  lemma OneMoreClient(env: Env, s: State, left: nat, places: nat, beside: nat, launch: Launch) returns (t: State)
    requires Reachable(env, s, left) && Crowd(s, places, beside) && places < env.concurrency && !launch.FailedFor?
    ensures launch.Launched? ==> Reachable(env, t, left) && Crowd(t, places + 1, beside)
    ensures launch.LeavesBehind? ==> Reachable(env, t, left + 1) && Crowd(t, places, beside + 1)
  {
    var r := Run(|s.children|, true);
    var queued := ReachOne(env, s, left, Enqueue(r));
    t := ReachOne(env, queued, left, Start(r, launch));
    if launch.Launched? {
      PlacedInCrowd(s, places, beside);
    } else {
      LeftIsGivenUp(queued, r);
      StrayInCrowd(s, places, beside);
    }
  }

  lemma PlacedInCrowd(s: State, places: nat, beside: nat)
    requires Crowd(s, places, beside)
    ensures var r := Run(|s.children|, true); Crowd(Placed(s.(ledger := s.ledger[r := Queued]), r), places + 1, beside)
  {
    var r := Run(|s.children|, true);
    assert (s.background[r := |s.children|]).Keys == s.background.Keys + {r};
  }

  lemma StrayInCrowd(s: State, places: nat, beside: nat)
    requires Crowd(s, places, beside)
    ensures var r := Run(|s.children|, true);
            Crowd(WithStray(GivenUp(s.(ledger := s.ledger[r := Queued]), r, false), r), places, beside + 1)
  {
    var r := Run(|s.children|, true);
    assert s.background - {r} == s.background;
  }

  lemma {:induction false} CrowdGrows(env: Env, s: State, left: nat, places: nat, beside: nat) returns (t: State)
    requires Reachable(env, s, left) && Crowd(s, places, beside) && places <= env.concurrency
    ensures Reachable(env, t, left) && Crowd(t, env.concurrency, beside)
    decreases env.concurrency - places
  {
    t := s;
    if places < env.concurrency {
      t := OneMoreClient(env, s, left, places, beside, Launched);
      t := CrowdGrows(env, t, left, places + 1, beside);
    }
  }

  lemma {:induction false} StraysPileUp(env: Env, left: nat) returns (s: State)
    requires env.concurrency >= 1
    ensures Reachable(env, s, left) && Crowd(s, 0, left)
  {
    if left == 0 {
      s := NOTHING;
      NothingIsReached(env);
    } else {
      s := StraysPileUp(env, left - 1);
      s := OneMoreClient(env, s, left - 1, 0, left - 1, LeavesBehind);
    }
  }

  function UpTo(k: nat): set<nat> {
    if k == 0 then {} else UpTo(k - 1) + {k - 1}
  }

  lemma {:induction false} CountUpTo(k: nat)
    ensures |UpTo(k)| == k && forall n: nat :: n in UpTo(k) <==> n < k
  {
    if k > 0 {
      CountUpTo(k - 1);
    }
  }

  lemma CrowdIsAlive(s: State, places: nat, beside: nat)
    requires Crowd(s, places, beside)
    ensures |AliveInBackground(s)| == places + beside
  {
    CountUpTo(|s.children|);
    assert AliveInBackground(s) == UpTo(|s.children|);
  }

  /**
   * Where no launch leaves its client behind, the limit is kept in every run exactly when retries are
   * made inside the lock, or one place is all there is.
   */
  lemma LimitHoldsExactly(env: Env)
    ensures (forall s :: Reachable(env, s, 0) ==> |AliveInBackground(s)| <= env.concurrency) <==> Safe(env)
  {
    if Safe(env) {
      forall s | Reachable(env, s, 0) ensures |AliveInBackground(s)| <= env.concurrency {
        PlacesAreBounded(env, s, 0);
      }
    } else {
      var s := TwoForOne(env);
      s := CrowdGrows(env, s, 0, 1, 1);
      CrowdIsAlive(s, env.concurrency, 1);
    }
  }

  /** Every client left behind comes on top of the limit: so many more may live, and no more. */
  lemma LeftClientsComeOnTop(env: Env, left: nat)
    requires Safe(env) && env.concurrency >= 1
    ensures forall s :: Reachable(env, s, left) ==> |AliveInBackground(s)| <= env.concurrency + left
    ensures exists s :: Reachable(env, s, left) && |AliveInBackground(s)| == env.concurrency + left
  {
    forall s | Reachable(env, s, left) ensures |AliveInBackground(s)| <= env.concurrency + left {
      PlacesAreBounded(env, s, left);
    }
    var s := StraysPileUp(env, left);
    s := CrowdGrows(env, s, left, 0, left);
    CrowdIsAlive(s, env.concurrency, left);
  }

  // ---------------------------------------------------------------- the sections of the lock

  class Relay {
    const env: Env
    var state: State

    constructor (env: Env)
      ensures this.env == env && state == NOTHING
    {
      this.env, state := env, NOTHING;
    }

    method Launch(r: Run, launch: Launch)
      requires r in state.ledger
      modifies this`state
      ensures state == Launching(old(state), r, launch)
    {
      if launch.FailedFor? {
        GiveUp(r, launch.again);
        return;
      }
      var n := |state.children|;
      state := state.(children := state.children + [Child(r, Alive)], ledger := state.ledger[r := Running]);
      if r.scheduled {
        state := state.(background := state.background[r := n]);
      } else {
        state := state.(active := Some(n));
      }
      if launch.LeavesBehind? {
        state := Marked(state, n, Stray);
        GiveUp(r, false);
      }
    }

    /** A launch that failed ends or requeues its run, and frees the place that the run holds. */
    method GiveUp(r: Run, again: bool)
      modifies this`state
      ensures state == GivenUp(old(state), r, again)
    {
      if r.scheduled {
        state := state.(background := state.background - {r});
      } else if state.active.Some? && state.active.value < |state.children| && state.children[state.active.value].run == r {
        state := state.(active := None);
      }
      state := state.(ledger := state.ledger[r := if again && r.scheduled then Queued else Done]);
    }

    /** A queued run is started when there is a place for it. */
    method StartJob(r: Run, launch: Launch) returns (started: bool)
      modifies this`state
      ensures started <==> Enabled(env, old(state), Start(r, launch))
      ensures state == if started then Apply(env, old(state), Start(r, launch)) else old(state)
    {
      if r !in state.ledger || !state.ledger[r].Queued? {
        return false;
      }
      if !r.scheduled && Foreground(state) {
        return false;
      }
      if if r.scheduled then |state.background| >= env.concurrency else state.active.Some? {
        return false;
      }
      Launch(r, launch);
      return true;
    }

    /** A closed client is settled; an advancing run keeps its place. */
    method Complete(n: nat, continues: bool)
      requires Enabled(env, state, Settle(n, continues))
      modifies this`state
      ensures state == Apply(env, old(state), Settle(n, continues))
    {
      var r := state.children[n].run;
      if continues {
        state := Marked(state, n, Advancing);
        return;
      }
      state := Marked(state, n, Finished);
      state := state.(ledger := state.ledger[r := Done]);
      state := Freed(state, r);
    }

    /** The next setup of an advancing run is launched in the place it kept, or the run ends. */
    method AdvanceRun(n: nat, next: Option<Launch>)
      requires Enabled(env, state, Advance(n, next)) && state.children[n].run in state.ledger
      modifies this`state
      ensures state == Apply(env, old(state), Advance(n, next))
    {
      var r := state.children[n].run;
      state := Marked(state, n, Finished);
      if next.Some? {
        Launch(r, next.value);
      } else {
        state := state.(ledger := state.ledger[r := Done]);
        state := Freed(state, r);
      }
    }
  }
}
