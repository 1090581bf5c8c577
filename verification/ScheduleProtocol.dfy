/**
 * Dispatch of one scheduled task as a protocol: the relay's ticker, command-line workers, the run
 * lifecycle and the clock take turns in steps of one durable write at most, with the reads that lead
 * to it. Any participant may fail between two of its steps; a failure releases the task's lock, as the
 * source's `finally` does.
 */
module ScheduleProtocol {
  import opened Options

  type Revision = nat
  type Worker = nat

  /** Run IDs are injective digests of the revision and due time, or of the caller's request key. */
  datatype RunId = Due(rev: Revision, at: int) | Manual(key: nat)

  datatype Status = Queued | Running | Completed | Failed | Cancelled

  /** `quota`: the record shows a quota wait, or a failure in which every setup met a quota. */
  datatype Run = Run(rev: Revision, status: Status, interrupted: bool, quota: bool) {
    predicate InFlight() {
      status.Queued? || status.Running?
    }
  }

  /** A saved schedule; `review` is its unreviewed-failures condition. */
  datatype Definition = Definition(rev: Revision, trigger: nat, enabled: bool, review: bool, preflight: bool,
      continuing: set<RunId>) {
    predicate Owns(id: RunId, r: Run) {
      r.rev == rev || id in continuing
    }

    predicate Holds(id: RunId, r: Run) {
      Owns(id, r) && (r.interrupted || (review && r.status.Failed?))
    }
  }

  /** Where the ticker stands: `s` is the definition it read, `at` the clock it read. */
  datatype Tick =
    | TickIdle
    | TickRead(s: Definition, at: int)
    | TickReady(s: Definition, at: int, due: int, future: Option<int>)
    | TickHolding(s: Definition, at: int, due: int, future: Option<int>)
    | TickCreated(s: Definition, at: int, due: int, future: Option<int>)

  datatype Pc =
    | Idle
    | Editing(current: Definition)
    | Snapshot(current: Definition, active: set<RunId>)
    | Publishing(next: Definition)
    | Enabling(current: Definition, on: bool)
    | Triggering(s: Definition, key: nat, saved: Option<int>)
    | TriggerHolding(s: Definition, key: nat, saved: Option<int>)
    | TriggerCreated(s: Definition, saved: Option<int>)
    | Retrying(id: RunId)
    | RetryHolding(id: RunId)
    | Requeueing(id: RunId)

  datatype Holder = Nobody | Ticker | By(w: Worker)

  /** `log` lists the runs the ticker created, oldest first. */
  datatype State = State(now: int, def: Definition, unused: Revision, cursors: map<Revision, Option<int>>,
                         runs: map<RunId, Run>, log: seq<RunId>, lock: Holder, tick: Tick, workers: map<Worker, Pc>) {
    function At(w: Worker): Pc {
      if w in workers then workers[w] else Idle
    }

    function Release(w: Worker): State {
      this.(workers := workers[w := Idle], lock := if lock == By(w) then Nobody else lock)
    }

    function Move(w: Worker, pc: Pc): State {
      this.(workers := workers[w := pc])
    }

    function Lock(w: Worker, pc: Pc): State {
      this.(workers := workers[w := pc], lock := By(w))
    }

    function EndTick(): State {
      this.(tick := TickIdle, lock := if lock == Ticker then Nobody else lock)
    }

    /** Nothing but possibly run `id` is queued or running. */
    predicate QuietBut(id: Option<RunId>) {
      forall j :: j in runs && runs[j].InFlight() ==> id == Some(j)
    }

    predicate Holding(d: Definition) {
      exists j :: j in runs && d.Holds(j, runs[j])
    }
  }

  /**
   * The occurrence search of each trigger, and whether a whole quota retry is made under the lock
   * under which runs start and end, as the relay makes it.
   */
  datatype Env = Env(next: (nat, int) -> Option<int>, startLock: bool)

  ghost predicate Sound(env: Env) {
    forall t, after :: env.next(t, after).Some? ==> env.next(t, after).value > after
  }

  /** The saved cursor of a revision, else the first occurrence its trigger ever names. */
  function Pending(env: Env, s: State, d: Definition): Option<int> {
    if d.rev in s.cursors then s.cursors[d.rev] else env.next(d.trigger, -1)
  }

  /** The clock and the run lifecycle: startJob, its quota wait, and completion. */
  datatype LifeStep =
    | Wait(ms: nat)
    | Start(id: RunId)
    | Settle(id: RunId, status: Status, interrupted: bool, quota: bool)
    | AwaitQuota(id: RunId)

  /** One pass of the ticker over this task. */
  datatype TickStep = Look | Check | Skip | Take | Commit | Advance | Abandon

  datatype WorkStep =
    | EditBegin(expected: Revision)
    | EditList(stage: bool)
    | EditCursor(trigger: nat, review: bool, preflight: bool)
    | EditPublish
    | EnableBegin(on: bool)
    | EnablePublish
    | TriggerBegin(key: nat)
    | TriggerTake
    | TriggerCommit
    | TriggerReceipt
    | RetryPick(id: RunId)
    | RetryTake
    | RetryCheck
    | RetryPatch
    | Fail

  datatype Step = Life(life: LifeStep) | Ticks(step: TickStep) | Works(w: Worker, work: WorkStep)

  predicate CanLive(s: State, step: LifeStep) {
    match step
    case Wait(_) => true
    case Start(id) => id in s.runs && s.runs[id].status.Queued?
    case Settle(id, status, _, _) => id in s.runs && s.runs[id].InFlight() && !status.Queued? && !status.Running?
    case AwaitQuota(id) => id in s.runs && s.runs[id].InFlight()
  }

  function Live(s: State, step: LifeStep): State
    requires CanLive(s, step)
  {
    match step
    case Wait(ms) => s.(now := s.now + ms)
    case Start(id) => s.(runs := s.runs[id := s.runs[id].(status := Running)])
    case Settle(id, status, interrupted, quota) =>
      s.(runs := s.runs[id := s.runs[id].(status := status, interrupted := interrupted, quota := quota)])
    case AwaitQuota(id) => s.(runs := s.runs[id := s.runs[id].(status := Queued, quota := true)])
  }

  predicate CanTick(s: State, step: TickStep) {
    match step
    case Look => s.tick.TickIdle? && s.def.enabled
    case Check => s.tick.TickRead?
    case Skip => s.tick.TickReady? && (s.tick.s.review || s.tick.s.preflight)
    case Take => s.tick.TickReady?
    case Commit => s.tick.TickHolding?
    case Advance => s.tick.TickCreated?
    case Abandon => !s.tick.TickIdle?
  }

  function Create(s: State, id: RunId, rev: Revision): State {
    s.(runs := s.runs[id := Run(rev, Queued, false, false)])
  }

  function TickDo(env: Env, s: State, step: TickStep): State
    requires CanTick(s, step)
  {
    match step
    case Look => s.(tick := TickRead(s.def, s.now))
    case Check =>
      var d, at := s.tick.s, s.tick.at;
      var due := Pending(env, s, d);
      if due.None? || due.value > at || !s.QuietBut(None) || s.Holding(d) then s.EndTick()
      else s.(tick := TickReady(d, at, due.value, env.next(d.trigger, at)))
    case Skip => s.(cursors := s.cursors[s.tick.s.rev := s.tick.future], tick := TickIdle)
    case Take =>
      if s.lock.Nobody? then s.(lock := Ticker, tick := TickHolding(s.tick.s, s.tick.at, s.tick.due, s.tick.future))
      else s.EndTick()
    case Commit =>
      var d, id := s.tick.s, Due(s.tick.s.rev, s.tick.due);
      var created := TickCreated(d, s.tick.at, s.tick.due, s.tick.future);
      if s.def.rev != d.rev || !s.def.enabled then s.EndTick()
      else if id in s.runs then s.(tick := created)
      else if !s.QuietBut(None) then s.EndTick()
      else Create(s, id, d.rev).(tick := created, log := s.log + [id])
    case Advance => s.(cursors := s.cursors[s.tick.s.rev := s.tick.future]).EndTick()
    case Abandon => s.EndTick()
  }

  predicate CanWork(env: Env, s: State, w: Worker, step: WorkStep) {
    match step
    case EditBegin(expected) => s.At(w).Idle? && s.lock.Nobody? && s.def.rev == expected
    case EditList(_) => s.At(w).Editing?
    case EditCursor(_, _, _) => s.At(w).Snapshot?
    case EditPublish => s.At(w).Publishing?
    case EnableBegin(_) => s.At(w).Idle? && s.lock.Nobody?
    case EnablePublish => s.At(w).Enabling?
    case TriggerBegin(key) => s.At(w).Idle? && s.def.enabled && Manual(key) !in s.runs && !s.Holding(s.def)
    case TriggerTake => s.At(w).Triggering? && s.lock.Nobody?
    case TriggerCommit => s.At(w).TriggerHolding?
    case TriggerReceipt => s.At(w).TriggerCreated?
    case RetryPick(id) => s.At(w).Idle? && s.def.enabled && Eligible(s, id)
    case RetryTake => s.At(w).Retrying? && s.lock.Nobody?
    case RetryCheck => s.At(w).RetryHolding?
    case RetryPatch => s.At(w).Requeueing?
    case Fail => !s.At(w).Idle?
  }

  /** The occurrences of a definition that are queued or running. */
  function Active(s: State, d: Definition): set<RunId> {
    set id | id in s.runs && d.Owns(id, s.runs[id]) && s.runs[id].InFlight()
  }

  /** A current, quota-blocked occurrence with no other occurrence in flight. */
  predicate Eligible(s: State, id: RunId) {
    && id in s.runs && s.def.Owns(id, s.runs[id]) && s.QuietBut(Some(id))
    && (s.runs[id].status.Queued? || s.runs[id].status.Failed?) && s.runs[id].quota && !s.runs[id].interrupted
  }

  /** The next occurrence of an edited schedule: a pending one survives when the trigger does not change. */
  function EditedNext(env: Env, s: State, current: Definition, trigger: nat): Option<int> {
    var pending := Pending(env, s, current);
    if trigger == current.trigger && pending.Some? && pending.value >= s.now then pending
    else env.next(trigger, s.now - 1)
  }

  function WorkDo(env: Env, s: State, w: Worker, step: WorkStep): State
    requires CanWork(env, s, w, step)
  {
    match step
    case EditBegin(_) => s.Lock(w, Editing(s.def))
    case EditList(stage) =>
      var current := s.At(w).current;
      var active := Active(s, current);
      if active != {} && !stage then s.Release(w) else s.Move(w, Snapshot(current, active))
    case EditCursor(trigger, review, preflight) =>
      var current, active := s.At(w).current, s.At(w).active;
      if |active| > 100 || env.next(trigger, s.now - 1).None? then s.Release(w)
      else s.(unused := s.unused + 1, cursors := s.cursors[s.unused := EditedNext(env, s, current, trigger)])
            .Move(w, Publishing(Definition(s.unused, trigger, current.enabled, review, preflight, active)))
    case EditPublish => s.(def := s.At(w).next).Release(w)
    case EnableBegin(on) => s.Lock(w, Enabling(s.def, on))
    case EnablePublish => s.(def := s.At(w).current.(enabled := s.At(w).on)).Release(w)
    case TriggerBegin(key) => s.Move(w, Triggering(s.def, key, Pending(env, s, s.def)))
    case TriggerTake => s.Lock(w, TriggerHolding(s.At(w).s, s.At(w).key, s.At(w).saved))
    case TriggerCommit =>
      var d, id := s.At(w).s, Manual(s.At(w).key);
      var created := TriggerCreated(d, s.At(w).saved);
      if !s.def.enabled || s.def.rev != d.rev then s.Release(w)
      else if id in s.runs then s.Move(w, created)
      else if !s.QuietBut(None) then s.Release(w)
      else Create(s, id, d.rev).Move(w, created)
    case TriggerReceipt =>
      var d := s.At(w).s;
      (if d.preflight then s.(cursors := s.cursors[d.rev := s.At(w).saved]) else s).Release(w)
    case RetryPick(id) => s.Move(w, Retrying(id))
    case RetryTake => s.Lock(w, RetryHolding(s.At(w).id))
    case RetryCheck =>
      var id := s.At(w).id;
      if id in s.runs && s.def.Owns(id, s.runs[id]) && s.QuietBut(Some(id)) then s.Move(w, Requeueing(id)) else s.Release(w)
    case RetryPatch =>
      var id := s.At(w).id;
      (if id in s.runs then s.(runs := s.runs[id := s.runs[id].(status := Queued, quota := true)]) else s).Release(w)
    case Fail => s.Release(w)
  }

  predicate InRetry(pc: Pc) {
    pc.Retrying? || pc.RetryHolding? || pc.Requeueing?
  }

  predicate RetryUnderWay(s: State) {
    exists w :: w in s.workers && InRetry(s.workers[w])
  }

  predicate Can(env: Env, s: State, step: Step) {
    match step
    case Life(life) => CanLive(s, life) && (env.startLock && RetryUnderWay(s) ==> life.Wait?)
    case Ticks(tick) => CanTick(s, tick)
    case Works(w, work) => CanWork(env, s, w, work)
  }

  function Do(env: Env, s: State, step: Step): State
    requires Can(env, s, step)
  {
    match step
    case Life(life) => Live(s, life)
    case Ticks(tick) => TickDo(env, s, tick)
    case Works(w, work) => WorkDo(env, s, w, work)
  }

  // ---------------------------------------------------------------- what every step keeps

  ghost predicate OneLive(s: State) {
    forall i, j :: i in s.runs && j in s.runs && s.runs[i].InFlight() && s.runs[j].InFlight() ==> i == j
  }

  ghost predicate LiveOwned(s: State) {
    forall id :: id in s.runs && s.runs[id].InFlight() ==> s.def.Owns(id, s.runs[id])
  }

  ghost predicate LiveWithin(s: State, ids: set<RunId>) {
    forall id :: id in s.runs && s.runs[id].InFlight() ==> id in ids
  }

  ghost predicate Revisions(s: State) {
    && s.def.rev < s.unused
    && (forall id :: id in s.runs && id.Due? ==> s.runs[id].rev == id.rev <= s.def.rev)
  }

  /** What a worker between two steps may rely on. */
  ghost predicate WorkerSound(s: State, w: Worker) {
    match s.At(w)
    case Idle => s.lock != By(w)
    case Triggering(_, _, _) => s.lock != By(w)
    case Retrying(_) => s.lock != By(w)
    case Editing(current) => s.lock == By(w) && current == s.def
    case Snapshot(current, active) => s.lock == By(w) && current == s.def && LiveWithin(s, active) && |active| <= 1
    case Publishing(next) => s.lock == By(w) && s.def.rev < next.rev < s.unused && LiveWithin(s, next.continuing)
    case Enabling(current, _) => s.lock == By(w) && current == s.def
    case TriggerHolding(_, _, _) => s.lock == By(w)
    case TriggerCreated(d, _) => s.lock == By(w) && d.rev == s.def.rev && s.def.enabled
    case RetryHolding(_) => s.lock == By(w)
    case Requeueing(id) => s.lock == By(w) && id in s.runs && s.def.Owns(id, s.runs[id]) && s.QuietBut(Some(id))
  }

  ghost predicate TickerSound(s: State) {
    s.lock == Ticker <==> s.tick.TickHolding? || s.tick.TickCreated?
  }

  ghost predicate RunsSound(s: State) {
    OneLive(s) && LiveOwned(s) && Revisions(s) && TickerSound(s)
  }

  ghost predicate Inv(s: State) {
    RunsSound(s) && forall w :: WorkerSound(s, w)
  }

  lemma LifeKeepsInv(s: State, step: LifeStep)
    requires Inv(s) && CanLive(s, step)
    ensures Inv(Live(s, step))
  {
    var t := Live(s, step);
    forall w ensures WorkerSound(t, w) {
      assert WorkerSound(s, w);
    }
  }

  lemma TickKeepsRuns(env: Env, s: State, step: TickStep)
    requires RunsSound(s) && CanTick(s, step)
    ensures RunsSound(TickDo(env, s, step))
  {
    if step.Commit? {
      CommitKeepsRuns(env, s);
    }
  }

  lemma CommitKeepsRuns(env: Env, s: State)
    requires RunsSound(s) && CanTick(s, Commit)
    ensures RunsSound(TickDo(env, s, Commit))
  {
  }

  lemma TickKeepsWorker(env: Env, s: State, step: TickStep, w: Worker)
    requires RunsSound(s) && CanTick(s, step) && WorkerSound(s, w)
    ensures WorkerSound(TickDo(env, s, step), w)
  {
  }

  lemma AtMostOneElement<T>(ids: set<T>)
    requires forall i, j :: i in ids && j in ids ==> i == j
    ensures |ids| <= 1
  {
    if ids != {} {
      var i :| i in ids;
      assert ids == {i};
    }
  }

  lemma ActiveIsSmall(s: State, current: Definition)
    requires OneLive(s)
    ensures |Active(s, current)| <= 1
  {
    AtMostOneElement(Active(s, current));
  }

  lemma WorkKeepsLive(env: Env, s: State, w: Worker, step: WorkStep)
    requires RunsSound(s) && CanWork(env, s, w, step) && WorkerSound(s, w)
    ensures OneLive(WorkDo(env, s, w, step))
  {
  }

  lemma WorkKeepsOwned(env: Env, s: State, w: Worker, step: WorkStep)
    requires RunsSound(s) && CanWork(env, s, w, step) && WorkerSound(s, w)
    ensures LiveOwned(WorkDo(env, s, w, step))
  {
  }

  lemma WorkKeepsRuns(env: Env, s: State, w: Worker, step: WorkStep)
    requires RunsSound(s) && CanWork(env, s, w, step) && WorkerSound(s, w)
    ensures RunsSound(WorkDo(env, s, w, step))
  {
    WorkKeepsLive(env, s, w, step);
    WorkKeepsOwned(env, s, w, step);
  }

  lemma WorkKeepsOwn(env: Env, s: State, w: Worker, step: WorkStep)
    requires RunsSound(s) && CanWork(env, s, w, step) && WorkerSound(s, w)
    ensures WorkerSound(WorkDo(env, s, w, step), w)
  {
    if step.EditList? {
      ActiveIsSmall(s, s.At(w).current);
    }
  }

  lemma WorkKeepsOther(env: Env, s: State, w: Worker, step: WorkStep, v: Worker)
    requires RunsSound(s) && CanWork(env, s, w, step) && WorkerSound(s, w) && WorkerSound(s, v) && v != w
    ensures WorkerSound(WorkDo(env, s, w, step), v)
  {
  }

  lemma StepKeepsInv(env: Env, s: State, step: Step)
    requires Inv(s) && Can(env, s, step)
    ensures Inv(Do(env, s, step))
  {
    match step
    case Life(life) => LifeKeepsInv(s, life);
    case Ticks(tick) =>
      TickKeepsRuns(env, s, tick);
      forall w ensures WorkerSound(TickDo(env, s, tick), w) {
        TickKeepsWorker(env, s, tick, w);
      }
    case Works(w, work) =>
      assert WorkerSound(s, w);
      WorkKeepsRuns(env, s, w, work);
      forall v ensures WorkerSound(WorkDo(env, s, w, work), v) {
        if v == w {
          WorkKeepsOwn(env, s, w, work);
        } else {
          WorkKeepsOther(env, s, w, work, v);
        }
      }
  }

  // ---------------------------------------------------------------- whole runs

  ghost predicate Initial(env: Env, s: State) {
    && s.runs == map[] && s.log == [] && s.lock.Nobody? && s.tick.TickIdle? && s.workers == map[]
    && s.def.rev < s.unused && s.def.continuing == {}
  }

  ghost predicate Legal(env: Env, s: State, steps: seq<Step>)
    decreases |steps|
  {
    steps == [] || (Can(env, s, steps[0]) && Legal(env, Do(env, s, steps[0]), steps[1..]))
  }

  ghost function After(env: Env, s: State, steps: seq<Step>): State
    requires Legal(env, s, steps)
    decreases |steps|
  {
    if steps == [] then s else After(env, Do(env, s, steps[0]), steps[1..])
  }

  lemma {:induction false} RunKeepsInv(env: Env, s: State, steps: seq<Step>)
    requires Inv(s) && Legal(env, s, steps)
    ensures Inv(After(env, s, steps))
    decreases |steps|
  {
    if steps != [] {
      StepKeepsInv(env, s, steps[0]);
      RunKeepsInv(env, Do(env, s, steps[0]), steps[1..]);
    }
  }

  ghost predicate Reachable(env: Env, t: State) {
    exists s, steps :: Initial(env, s) && Legal(env, s, steps) && After(env, s, steps) == t
  }

  lemma {:induction false} Extend(env: Env, s: State, steps: seq<Step>, step: Step)
    requires Legal(env, s, steps) && Can(env, After(env, s, steps), step)
    ensures Legal(env, s, steps + [step]) && After(env, s, steps + [step]) == Do(env, After(env, s, steps), step)
    decreases |steps|
  {
    if steps == [] {
      assert [step][1..] == [];
    } else {
      Extend(env, Do(env, s, steps[0]), steps[1..], step);
      assert (steps + [step])[1..] == steps[1..] + [step];
    }
  }

  lemma ReachStep(env: Env, s: State, step: Step) returns (t: State)
    requires Reachable(env, s) && Can(env, s, step)
    ensures t == Do(env, s, step) && Reachable(env, t)
  {
    var s0, steps :| Initial(env, s0) && Legal(env, s0, steps) && After(env, s0, steps) == s;
    Extend(env, s0, steps, step);
    t := Do(env, s, step);
  }

  lemma ReachStart(env: Env, s: State)
    requires Initial(env, s)
    ensures Reachable(env, s)
  {
    assert Legal(env, s, []) && After(env, s, []) == s;
  }

  /**
   * In every reachable state, whatever the interleaving and the failures: at most one occurrence is
   * queued or running, and it belongs to the definition saved at that moment, through any chain of
   * staged edits. No snapshot an edit takes ever exceeds the limit on continuing occurrences.
   */
  lemma OneCurrentOccurrence(env: Env, t: State)
    requires Reachable(env, t)
    ensures forall i, j :: i in t.runs && j in t.runs && t.runs[i].InFlight() && t.runs[j].InFlight() ==> i == j
    ensures forall i :: i in t.runs && t.runs[i].InFlight() ==> t.def.Owns(i, t.runs[i])
    ensures forall w :: t.At(w).Snapshot? ==> |t.At(w).active| <= 1
  {
    var s, steps :| Initial(env, s) && Legal(env, s, steps) && After(env, s, steps) == t;
    RunKeepsInv(env, s, steps);
    forall w | t.At(w).Snapshot? ensures |t.At(w).active| <= 1 {
      assert WorkerSound(t, w);
    }
  }

  // ---------------------------------------------------------------- due times

  ghost predicate DueOrdered(log: seq<RunId>) {
    forall i, j :: 0 <= i < j < |log| && log[i].Due? && log[j].Due? && log[i].rev == log[j].rev ==> log[i].at < log[j].at
  }

  ghost predicate LogSound(s: State) {
    (forall id :: id in s.log ==> id.Due? && id in s.runs) && (forall id :: id in s.runs && id.Due? ==> id in s.log)
  }

  /** No logged due time of revision `rev` lies after `bound`. */
  ghost predicate NoneAfter(s: State, rev: Revision, bound: int) {
    forall id :: id in s.log && id.Due? && id.rev == rev ==> id.at <= bound
  }

  /** The ticker is about to dispatch a due time of the revision that lies after `bound`. */
  predicate CarriesAfter(s: State, rev: Revision, bound: int) {
    (s.tick.TickReady? || s.tick.TickHolding? || s.tick.TickCreated?) && s.tick.s.rev == rev && s.tick.due > bound
  }

  /** A cursor that names nothing, nothing behind what was dispatched or soon is, or what was dispatched already. */
  ghost predicate Fine(s: State, rev: Revision, cursor: Option<int>) {
    cursor.Some? ==> (NoneAfter(s, rev, cursor.value) && !CarriesAfter(s, rev, cursor.value)) || Due(rev, cursor.value) in s.runs
  }

  ghost predicate SameRule(d: Definition, s: State) {
    d.rev <= s.def.rev && (d.rev == s.def.rev ==> d.trigger == s.def.trigger)
  }

  /** What the ticker carries is no earlier than anything logged, or was dispatched before. */
  ghost predicate TickOrdered(s: State, d: Definition, at: int, due: int, future: Option<int>) {
    && SameRule(d, s) && due <= at <= s.now && (future.Some? ==> future.value > at) && NoneAfter(s, d.rev, at)
    && (d.rev == s.def.rev ==> NoneAfter(s, d.rev, due) || Due(d.rev, due) in s.runs)
  }

  ghost predicate TickInv(s: State) {
    match s.tick
    case TickIdle => true
    case TickRead(d, at) => SameRule(d, s) && at <= s.now && NoneAfter(s, d.rev, at)
    case TickReady(d, at, due, future) => TickOrdered(s, d, at, due, future)
    case TickHolding(d, at, due, future) => TickOrdered(s, d, at, due, future)
    case TickCreated(d, at, due, future) => TickOrdered(s, d, at, due, future)
  }

  ghost predicate CursorInv(env: Env, s: State) {
    Fine(s, s.def.rev, Pending(env, s, s.def))
  }

  ghost predicate LogInv(s: State) {
    LogSound(s) && DueOrdered(s.log) && forall id :: id in s.log ==> id.at <= s.now
  }

  /** A worker carries no definition newer than the saved one, but for the one it publishes. */
  ghost predicate Known(s: State, w: Worker) {
    match s.At(w)
    case Triggering(d, _, _) => d.rev <= s.def.rev
    case TriggerHolding(d, _, _) => d.rev <= s.def.rev
    case TriggerCreated(d, _) => d.rev <= s.def.rev
    case _ => true
  }

  /** What orders the due times. */
  ghost predicate OrderInv(env: Env, s: State) {
    LogInv(s) && CursorInv(env, s) && TickInv(s) && forall w :: Known(s, w)
  }

  /** The receipt of a trigger writes back a cursor that names an occurrence passed over meanwhile. */
  ghost predicate Revives(s: State, step: Step) {
    && step.Works? && step.work.TriggerReceipt? && s.At(step.w).TriggerCreated?
    && s.At(step.w).s.preflight && !Fine(s, s.At(step.w).s.rev, s.At(step.w).saved)
  }

  /** A run in which no receipt revives an occurrence. */
  ghost predicate Orderly(env: Env, s: State, steps: seq<Step>)
    requires Legal(env, s, steps)
    decreases |steps|
  {
    steps != [] ==> !Revives(s, steps[0]) && Orderly(env, Do(env, s, steps[0]), steps[1..])
  }

  lemma LifeKeepsOrder(env: Env, s: State, step: LifeStep)
    requires OrderInv(env, s) && CanLive(s, step)
    ensures OrderInv(env, Live(s, step))
  {
    forall w ensures Known(Live(s, step), w) {
      assert Known(s, w);
    }
  }

  lemma TickKeepsOrder(env: Env, s: State, step: TickStep)
    requires Sound(env) && RunsSound(s) && OrderInv(env, s) && CanTick(s, step)
    ensures OrderInv(env, TickDo(env, s, step))
  {
    var t := TickDo(env, s, step);
    forall w ensures Known(t, w) {
      assert Known(s, w);
    }
    TickKeepsLog(env, s, step);
    TickKeepsCursor(env, s, step);
    TickKeepsTick(env, s, step);
  }

  lemma TickKeepsLog(env: Env, s: State, step: TickStep)
    requires LogInv(s) && TickInv(s) && CanTick(s, step)
    ensures LogInv(TickDo(env, s, step))
  {
    if step.Commit? {
      CommitKeepsLog(env, s);
    }
  }

  lemma CommitKeepsLog(env: Env, s: State)
    requires LogInv(s) && TickInv(s) && CanTick(s, Commit)
    ensures LogInv(TickDo(env, s, Commit))
  {
    var t, id := TickDo(env, s, Commit), Due(s.tick.s.rev, s.tick.due);
    if t.log != s.log {
      assert id !in s.log && NoneAfter(s, id.rev, id.at);
      DispatchKeepsOrder(s.log, id);
      DispatchKeepsLog(s, t, id);
    }
  }

  lemma DispatchKeepsOrder(log: seq<RunId>, id: RunId)
    requires DueOrdered(log) && id.Due? && id !in log && forall k :: k in log && k.Due? && k.rev == id.rev ==> k.at <= id.at
    ensures DueOrdered(log + [id])
  {
    forall i | 0 <= i < |log| && log[i].Due? && log[i].rev == id.rev ensures log[i].at < id.at {
      assert log[i] in log;
    }
  }

  lemma DispatchKeepsLog(s: State, t: State, id: RunId)
    requires LogInv(s) && id.Due? && id.at <= s.now && t.now == s.now
    requires t.log == s.log + [id] && t.runs.Keys == s.runs.Keys + {id} && DueOrdered(t.log)
    ensures LogInv(t)
  {
    assert forall k :: k in t.log <==> k in s.log || k == id;
    assert forall k :: k in t.runs <==> k in t.runs.Keys;
  }

  lemma TickKeepsCursor(env: Env, s: State, step: TickStep)
    requires Sound(env) && RunsSound(s) && CursorInv(env, s) && TickInv(s) && CanTick(s, step)
    ensures CursorInv(env, TickDo(env, s, step))
  {
    if step.Skip? || step.Advance? {
      FutureKeepsCursor(env, s, step);
    } else if step.Commit? {
      CommitKeepsCursor(env, s);
    }
  }

  lemma FutureKeepsCursor(env: Env, s: State, step: TickStep)
    requires Sound(env) && RunsSound(s) && CursorInv(env, s) && TickInv(s) && CanTick(s, step) && (step.Skip? || step.Advance?)
    ensures CursorInv(env, TickDo(env, s, step))
  {
  }

  lemma CommitKeepsCursor(env: Env, s: State)
    requires Sound(env) && RunsSound(s) && CursorInv(env, s) && TickInv(s) && CanTick(s, Commit)
    ensures CursorInv(env, TickDo(env, s, Commit))
  {
  }

  lemma TickKeepsTick(env: Env, s: State, step: TickStep)
    requires Sound(env) && RunsSound(s) && LogInv(s) && CursorInv(env, s) && TickInv(s) && CanTick(s, step)
    ensures TickInv(TickDo(env, s, step))
  {
  }

  lemma WorkMakesNoDue(env: Env, s: State, w: Worker, step: WorkStep)
    requires CanWork(env, s, w, step)
    ensures var t := WorkDo(env, s, w, step);
            t.log == s.log && t.now == s.now && forall id: RunId :: id.Due? ==> (id in t.runs <==> id in s.runs)
    ensures forall id :: id in s.runs ==> id in WorkDo(env, s, w, step).runs
  {
  }

  lemma WorkKeepsLog(env: Env, s: State, w: Worker, step: WorkStep)
    requires LogInv(s) && CanWork(env, s, w, step)
    ensures LogInv(WorkDo(env, s, w, step))
  {
    WorkMakesNoDue(env, s, w, step);
  }

  lemma WorkKeepsCursor(env: Env, s: State, w: Worker, step: WorkStep)
    requires RunsSound(s) && WorkerSound(s, w) && LogSound(s) && TickInv(s)
    requires CursorInv(env, s) && Known(s, w) && CanWork(env, s, w, step) && !Revives(s, Works(w, step))
    ensures CursorInv(env, WorkDo(env, s, w, step))
  {
    if Publishes(step) {
      PublishKeepsCursor(env, s, w, step);
    } else if step.EditCursor? || step.TriggerReceipt? {
      WrittenKeepsCursor(env, s, w, step);
    } else {
      WorkMakesNoDue(env, s, w, step);
    }
  }

  predicate Publishes(step: WorkStep) {
    step.EditPublish? || step.EnablePublish?
  }

  lemma PublishKeepsCursor(env: Env, s: State, w: Worker, step: WorkStep)
    requires RunsSound(s) && WorkerSound(s, w) && LogSound(s) && TickInv(s) && CursorInv(env, s)
             && CanWork(env, s, w, step) && Publishes(step)
    ensures CursorInv(env, WorkDo(env, s, w, step))
  {
  }

  lemma WrittenKeepsCursor(env: Env, s: State, w: Worker, step: WorkStep)
    requires RunsSound(s) && WorkerSound(s, w) && CursorInv(env, s) && Known(s, w)
    requires CanWork(env, s, w, step) && (step.EditCursor? || step.TriggerReceipt?) && !Revives(s, Works(w, step))
    ensures CursorInv(env, WorkDo(env, s, w, step))
  {
  }

  lemma WorkKeepsKnown(env: Env, s: State, w: Worker, step: WorkStep)
    requires WorkerSound(s, w) && Known(s, w) && CanWork(env, s, w, step)
    ensures Known(WorkDo(env, s, w, step), w)
  {
  }

  lemma WorkKeepsTick(env: Env, s: State, w: Worker, step: WorkStep)
    requires RunsSound(s) && WorkerSound(s, w) && TickInv(s) && CanWork(env, s, w, step)
    ensures TickInv(WorkDo(env, s, w, step))
  {
    if Publishes(step) {
      PublishKeepsTick(env, s, w, step);
    } else {
      WorkMakesNoDue(env, s, w, step);
    }
  }

  lemma PublishKeepsTick(env: Env, s: State, w: Worker, step: WorkStep)
    requires RunsSound(s) && WorkerSound(s, w) && TickInv(s) && CanWork(env, s, w, step) && Publishes(step)
    ensures TickInv(WorkDo(env, s, w, step))
  {
  }

  lemma WorkKeepsPlace(env: Env, s: State, w: Worker, step: WorkStep, v: Worker)
    requires CanWork(env, s, w, step) && v != w && WorkerSound(s, w)
    ensures WorkDo(env, s, w, step).At(v) == s.At(v) && s.def.rev <= WorkDo(env, s, w, step).def.rev
  {
    WorkMovesOne(env, s, w, step, v);
  }

  lemma StepKeepsOrder(env: Env, s: State, step: Step)
    requires Sound(env) && Inv(s) && OrderInv(env, s) && Can(env, s, step) && !Revives(s, step)
    ensures OrderInv(env, Do(env, s, step))
  {
    match step
    case Life(life) => LifeKeepsOrder(env, s, life);
    case Ticks(tick) => TickKeepsOrder(env, s, tick);
    case Works(w, work) =>
      assert WorkerSound(s, w) && Known(s, w);
      WorkKeepsLog(env, s, w, work);
      WorkKeepsCursor(env, s, w, work);
      WorkKeepsKnown(env, s, w, work);
      WorkKeepsTick(env, s, w, work);
      forall v ensures Known(WorkDo(env, s, w, work), v) {
        assert Known(s, v);
        if v != w {
          WorkKeepsPlace(env, s, w, work, v);
        }
      }
  }

  lemma {:induction false} RunKeepsOrder(env: Env, s: State, steps: seq<Step>)
    requires Sound(env) && Inv(s) && OrderInv(env, s) && Legal(env, s, steps) && Orderly(env, s, steps)
    ensures OrderInv(env, After(env, s, steps))
    decreases |steps|
  {
    if steps != [] {
      StepKeepsInv(env, s, steps[0]);
      StepKeepsOrder(env, s, steps[0]);
      RunKeepsOrder(env, Do(env, s, steps[0]), steps[1..]);
    }
  }

  /**
   * In every run without such a receipt the ticker's runs of one revision come in strictly increasing
   * due order, so a due time never runs twice, even when a cursor write fails; the pending occurrence
   * is behind nothing dispatched unless it was dispatched itself; and however many occurrences were
   * missed, the cursor a finishing tick leaves is null or past the clock that tick read.
   */
  lemma DueTimesIncrease(env: Env, s: State, steps: seq<Step>)
    requires Sound(env) && Initial(env, s) && Legal(env, s, steps) && Orderly(env, s, steps)
    ensures var t := After(env, s, steps);
            && DueOrdered(t.log) && Fine(t, t.def.rev, Pending(env, t, t.def))
            && (t.tick.TickCreated? ==>
                  var next := Pending(env, TickDo(env, t, Advance), t.tick.s);
                  t.tick.due <= t.tick.at && (next.Some? ==> t.tick.at < next.value))
  {
    RunKeepsOrder(env, s, steps);
  }

  // ---------------------------------------------------------------- definitions without a preflight

  /** No worker carries a definition with a preflight, and none is saved. */
  ghost predicate Plain(s: State) {
    !s.def.preflight && forall w :: PlainAt(s, w)
  }

  ghost predicate PlainAt(s: State, w: Worker) {
    match s.At(w)
    case Editing(current) => !current.preflight
    case Publishing(next) => !next.preflight
    case Enabling(current, _) => !current.preflight
    case Triggering(d, _, _) => !d.preflight
    case TriggerHolding(d, _, _) => !d.preflight
    case TriggerCreated(d, _) => !d.preflight
    case _ => true
  }

  predicate GivesPreflight(step: Step) {
    step.Works? && step.work.EditCursor? && step.work.preflight
  }

  lemma StepKeepsPlain(env: Env, s: State, step: Step, v: Worker)
    requires Plain(s) && Can(env, s, step) && !GivesPreflight(step)
    ensures !Do(env, s, step).def.preflight && PlainAt(Do(env, s, step), v)
  {
    assert PlainAt(s, v);
    if step.Works? {
      assert PlainAt(s, step.w);
      WorkKeepsPlain(env, s, step.w, step.work, v);
    }
  }

  lemma WorkKeepsPlain(env: Env, s: State, w: Worker, step: WorkStep, v: Worker)
    requires !s.def.preflight && PlainAt(s, w) && PlainAt(s, v) && CanWork(env, s, w, step) && !(step.EditCursor? && step.preflight)
    ensures !WorkDo(env, s, w, step).def.preflight && PlainAt(WorkDo(env, s, w, step), v)
  {
    WorkKeepsOwnPlain(env, s, w, step);
    if v != w {
      WorkMovesOne(env, s, w, step, v);
    }
  }

  lemma WorkMovesOne(env: Env, s: State, w: Worker, step: WorkStep, v: Worker)
    requires CanWork(env, s, w, step) && v != w
    ensures WorkDo(env, s, w, step).At(v) == s.At(v)
  {
  }

  lemma WorkKeepsOwnPlain(env: Env, s: State, w: Worker, step: WorkStep)
    requires !s.def.preflight && PlainAt(s, w) && CanWork(env, s, w, step) && !(step.EditCursor? && step.preflight)
    ensures !WorkDo(env, s, w, step).def.preflight && PlainAt(WorkDo(env, s, w, step), w)
  {
  }

  /** A run in which no definition carries a preflight is orderly. */
  lemma {:induction false} PlainIsOrderly(env: Env, s: State, steps: seq<Step>)
    requires Plain(s) && Legal(env, s, steps) && forall step :: step in steps ==> !GivesPreflight(step)
    ensures Orderly(env, s, steps)
    decreases |steps|
  {
    if steps != [] {
      if steps[0].Works? {
        assert PlainAt(s, steps[0].w);
      }
      forall v ensures PlainAt(Do(env, s, steps[0]), v) {
        StepKeepsPlain(env, s, steps[0], v);
      }
      StepKeepsPlain(env, s, steps[0], 0);
      PlainIsOrderly(env, Do(env, s, steps[0]), steps[1..]);
    }
  }

  // ---------------------------------------------------------------- receipts that revive

  const TEN_LATER := (trigger: nat, after: int) => Some(after + 10)

  /** A task due at time 5, whose definition may carry a preflight. */
  function Task(preflight: bool): State {
    State(5, Definition(0, 0, true, false, preflight, {}), 1, map[0 := Some(5)], map[], [], Nobody, TickIdle, map[])
  }

  lemma TickReads(env: Env, s: State, due: int) returns (t: State)
    requires Reachable(env, s) && env.next == TEN_LATER && s.tick.TickIdle? && s.def.enabled
    requires s.QuietBut(None) && !s.Holding(s.def) && Pending(env, s, s.def) == Some(due) && due <= s.now
    ensures Reachable(env, t) && t == s.(tick := TickReady(s.def, s.now, due, Some(s.now + 10)))
  {
    t := ReachStep(env, s, Ticks(Look));
    t := ReachStep(env, t, Ticks(Check));
  }

  lemma TickOnce(env: Env, s: State, due: int) returns (t: State)
    requires Reachable(env, s) && env.next == TEN_LATER && s.tick.TickIdle? && s.lock.Nobody? && s.def.enabled
    requires s.QuietBut(None) && !s.Holding(s.def) && Pending(env, s, s.def) == Some(due) && due <= s.now
             && Due(s.def.rev, due) !in s.runs
    ensures Reachable(env, t)
    ensures t == Create(s, Due(s.def.rev, due), s.def.rev).(log := s.log + [Due(s.def.rev, due)],
            cursors := s.cursors[s.def.rev := Some(s.now + 10)])
  {
    t := TickReads(env, s, due);
    t := ReachStep(env, t, Ticks(Take));
    t := ReachStep(env, t, Ticks(Commit));
    t := ReachStep(env, t, Ticks(Advance));
  }

  const ENDED := Run(0, Completed, false, false)

  lemma RunDue(env: Env, s: State, due: int) returns (t: State)
    requires Reachable(env, s) && env.next == TEN_LATER && s.tick.TickIdle? && s.lock.Nobody? && s.def.enabled && s.def.rev == 0
    requires s.QuietBut(None) && !s.Holding(s.def) && Pending(env, s, s.def) == Some(due) && due <= s.now && Due(0, due) !in s.runs
    requires !RetryUnderWay(s)
    ensures Reachable(env, t)
    ensures t == s.(runs := t.runs, log := s.log + [Due(0, due)], cursors := s.cursors[0 := Some(s.now + 10)])
    ensures t.runs == s.runs[Due(0, due) := ENDED]
  {
    t := TickOnce(env, s, due);
    t := ReachStep(env, t, Life(Settle(Due(0, due), Completed, false, false)));
  }

  /** A trigger has read the cursor at 5; the occurrence due at 5 is then skipped. */
  lemma TriggerReadsThenSkip(env: Env) returns (s: State)
    requires env == Env(TEN_LATER, true)
    ensures Reachable(env, s)
    ensures s == Task(true).(now := 15, cursors := map[0 := Some(5)][0 := Some(15)],
            workers := map[1 := Triggering(Task(true).def, 7, Some(5))])
  {
    s := Task(true);
    ReachStart(env, s);
    s := ReachStep(env, s, Works(1, TriggerBegin(7)));
    s := TickReads(env, s, 5);
    s := ReachStep(env, s, Ticks(Skip));
    s := ReachStep(env, s, Life(Wait(10)));
  }

  /** The manual run is queued under the lock. */
  lemma TriggerQueues(env: Env, s: State) returns (t: State)
    requires Reachable(env, s) && s.workers == map[1 := Triggering(s.def, 7, Some(5))] && s.def.enabled
    requires s.lock.Nobody? && s.QuietBut(None) && Manual(7) !in s.runs && s.def.rev == 0
    ensures Reachable(env, t) && t == Create(s, Manual(7), 0).(workers := map[1 := TriggerCreated(s.def, Some(5))], lock := By(1))
  {
    t := ReachStep(env, s, Works(1, TriggerTake));
    t := ReachStep(env, t, Works(1, TriggerCommit));
  }

  /** The trigger writes back the cursor it had read, and its run ends. */
  lemma TriggerWritesBack(env: Env, s: State) returns (t: State)
    requires Reachable(env, s) && s.workers == map[1 := Triggering(s.def, 7, Some(5))] && s.def.preflight && s.def.enabled
    requires s.lock.Nobody? && s.QuietBut(None) && Manual(7) !in s.runs && s.def.rev == 0
    ensures Reachable(env, t) && t.runs == s.runs[Manual(7) := ENDED]
    ensures t == s.(cursors := s.cursors[0 := Some(5)], runs := t.runs, workers := map[1 := Idle])
  {
    t := TriggerQueues(env, s);
    t := ReachStep(env, t, Works(1, TriggerReceipt));
    assert t.workers == map[1 := Idle];
    t := ReachStep(env, t, Life(Settle(Manual(7), Completed, false, false)));
  }

  /**
   * With a preflight the order can break. A manual trigger reads the cursor during its preflight and
   * writes it back after its run: an occurrence skipped meanwhile comes due again, behind a later one.
   */
  lemma StaleReceiptReordersDueTimes()
    ensures exists env, t :: Sound(env) && env.startLock && Reachable(env, t) && !DueOrdered(t.log)
  {
    var env := Env(TEN_LATER, true);
    var s := FifteenThenWriteBack(env);
    s := RunDue(env, s, 5);
    assert s.log[0] == Due(0, 15) && s.log[1] == Due(0, 5);
  }

  lemma FifteenThenWriteBack(env: Env) returns (s: State)
    requires env == Env(TEN_LATER, true)
    ensures Reachable(env, s) && s.def == Task(true).def && s.now == 15 && s.log == [Due(0, 15)] && s.cursors == map[0 := Some(5)]
    ensures s.runs == map[Due(0, 15) := ENDED, Manual(7) := ENDED] && s.tick.TickIdle? && s.lock.Nobody?
            && s.workers == map[1 := Idle]
  {
    s := TriggerReadsThenSkip(env);
    s := RunDue(env, s, 15);
    s := TriggerWritesBack(env, s);
  }

  /** Nothing logged, and nothing the ticker carries, lies in the future. */
  ghost predicate Past(s: State) {
    && (forall id :: id in s.log && id.Due? ==> id.at <= s.now)
    && match s.tick
       case TickIdle => true
       case TickRead(_, at) => at <= s.now
       case TickReady(_, at, due, _) => due <= at <= s.now
       case TickHolding(_, at, due, _) => due <= at <= s.now
       case TickCreated(_, at, due, _) => due <= at <= s.now
  }

  lemma TickKeepsPast(env: Env, s: State, step: TickStep)
    requires Past(s) && CanTick(s, step)
    ensures Past(TickDo(env, s, step))
  {
  }

  lemma StepKeepsPast(env: Env, s: State, step: Step)
    requires Past(s) && Can(env, s, step)
    ensures Past(Do(env, s, step))
  {
    match step
    case Life(_) =>
    case Ticks(tick) => TickKeepsPast(env, s, tick);
    case Works(w, work) => WorkMakesNoDue(env, s, w, work);
  }

  lemma {:induction false} RunKeepsPast(env: Env, s: State, steps: seq<Step>)
    requires Past(s) && Legal(env, s, steps)
    ensures Past(After(env, s, steps))
    decreases |steps|
  {
    if steps != [] {
      StepKeepsPast(env, s, steps[0]);
      RunKeepsPast(env, Do(env, s, steps[0]), steps[1..]);
    }
  }

  /** What the invariants say of a trigger about to write its receipt. */
  lemma ReceiptHolds(env: Env, s: State, w: Worker)
    requires Reachable(env, s) && s.At(w).TriggerCreated?
    ensures s.lock == By(w) && s.At(w).s.rev == s.def.rev && s.def.enabled && Past(s)
  {
    var s0, steps :| Initial(env, s0) && Legal(env, s0, steps) && After(env, s0, steps) == s;
    RunKeepsInv(env, s0, steps);
    RunKeepsPast(env, s0, steps);
    assert WorkerSound(s, w);
  }

  /** Nothing but a hold keeps the schedule from going on: no retry blocks the life of runs, and no ended run holds it. */
  ghost predicate GoesOn(s: State) {
    !RetryUnderWay(s) && forall id :: id in s.runs && !s.runs[id].InFlight() ==> !s.def.Holds(id, s.runs[id])
  }

  /** What is in flight ends. */
  lemma Quietens(env: Env, s: State) returns (t: State)
    requires Reachable(env, s) && GoesOn(s)
    ensures Reachable(env, t) && t == s.(runs := t.runs) && t.runs.Keys == s.runs.Keys
    ensures t.QuietBut(None) && !t.Holding(t.def) && GoesOn(t)
  {
    OneCurrentOccurrence(env, s);
    t := s;
    if id :| id in t.runs && t.runs[id].InFlight() {
      t := ReachStep(env, t, Life(Settle(id, Completed, false, false)));
    }
  }

  /** The ticker starts afresh and dispatches what the cursor names. */
  lemma DispatchesPending(env: Env, s: State, due: int) returns (t: State)
    requires Reachable(env, s) && s.lock.Nobody? && s.def.enabled && GoesOn(s)
    requires Pending(env, s, s.def) == Some(due) && due <= s.now && Due(s.def.rev, due) !in s.runs
    ensures Reachable(env, t) && t.log == s.log + [Due(s.def.rev, due)]
  {
    t := Quietens(env, s);
    if !t.tick.TickIdle? {
      t := ReachStep(env, t, Ticks(Abandon));
    }
    t := LooksAndCommits(env, t, due);
  }

  lemma LooksAndCommits(env: Env, s: State, due: int) returns (t: State)
    requires Reachable(env, s) && s.tick.TickIdle? && s.lock.Nobody? && s.def.enabled && s.QuietBut(None) && !s.Holding(s.def)
    requires Pending(env, s, s.def) == Some(due) && due <= s.now && Due(s.def.rev, due) !in s.runs
    ensures Reachable(env, t) && t.log == s.log + [Due(s.def.rev, due)]
  {
    t := ReachStep(env, s, Ticks(Look));
    t := ReachStep(env, t, Ticks(Check));
    t := ReachStep(env, t, Ticks(Take));
    t := ReachStep(env, t, Ticks(Commit));
  }

  /** The ticker dispatches what it carries, and fails before it writes its cursor. */
  lemma DispatchesCarried(env: Env, s: State) returns (t: State)
    requires Reachable(env, s) && s.lock.Nobody? && s.tick.TickReady? && s.tick.s.rev == s.def.rev && s.def.enabled && GoesOn(s)
    requires Due(s.def.rev, s.tick.due) !in s.runs
    ensures Reachable(env, t) && t.log == s.log + [Due(s.def.rev, s.tick.due)] && GoesOn(t)
    ensures t == s.(runs := t.runs, log := t.log, tick := TickIdle) && t.runs.Keys == s.runs.Keys + {Due(s.def.rev, s.tick.due)}
  {
    t := Quietens(env, s);
    t := ReachStep(env, t, Ticks(Take));
    t := ReachStep(env, t, Ticks(Commit));
    t := ReachStep(env, t, Ticks(Abandon));
  }

  /** Some later due time of the revision is logged, or the ticker carries one that it will log. */
  lemma BehindWhat(env: Env, s: State, w: Worker)
    requires Reachable(env, s) && Revives(s, Works(w, TriggerReceipt))
    ensures var d, due := s.At(w).s, s.At(w).saved.value;
            || (exists later :: later in s.log && later.Due? && later.rev == d.rev && due < later.at)
            || (s.tick.TickReady? && s.tick.s.rev == d.rev && due < s.tick.due && Due(d.rev, s.tick.due) !in s.runs)
  {
    var s0, steps :| Initial(env, s0) && Legal(env, s0, steps) && After(env, s0, steps) == s;
    RunKeepsInv(env, s0, steps);
    assert WorkerSound(s, w);
    RunLogs(env, s0, steps);
  }

  /** Every run of the ticker is logged. */
  lemma {:induction false} RunLogs(env: Env, s: State, steps: seq<Step>)
    requires LogSound(s) && Legal(env, s, steps)
    ensures LogSound(After(env, s, steps))
    decreases |steps|
  {
    if steps != [] {
      if steps[0].Works? {
        WorkMakesNoDue(env, s, steps[0].w, steps[0].work);
      }
      RunLogs(env, Do(env, s, steps[0]), steps[1..]);
    }
  }

  /**
   * Conversely, a receipt that revives an occurrence lets the order break from there on, unless a
   * run that has ended holds the schedule.
   */
  lemma RevivingReceiptDisorders(env: Env, s: State, w: Worker) returns (t: State)
    requires Reachable(env, s) && Can(env, s, Works(w, TriggerReceipt)) && Revives(s, Works(w, TriggerReceipt))
    requires GoesOn(Do(env, s, Works(w, TriggerReceipt)))
    ensures Reachable(env, t) && !DueOrdered(t.log) && s.log <= t.log
  {
    var rev, due := s.def.rev, s.At(w).saved.value;
    ReceiptHolds(env, s, w);
    BehindWhat(env, s, w);
    t := ReachStep(env, s, Works(w, TriggerReceipt));
    if later :| later in s.log && later.Due? && later.rev == rev && due < later.at {
      var k :| 0 <= k < |s.log| && s.log[k] == later;
      t := DispatchesPending(env, t, due);
      assert t.log[k] == later && t.log[|s.log|] == Due(rev, due);
    } else {
      var carried := t.tick.due;
      t := DispatchesCarried(env, t);
      t := DispatchesPending(env, t, due);
      assert t.log[|s.log|] == Due(rev, carried) && t.log[|s.log| + 1] == Due(rev, due);
    }
  }

  // ---------------------------------------------------------------- what must be looked at first

  /** The ticker passes its check exactly when its task is due and idle, and no run of it is interrupted or an unreviewed failure. */
  lemma CheckPassesExactly(env: Env, s: State)
    requires s.tick.TickRead?
    ensures var d, t := s.tick.s, TickDo(env, s, Check);
            && (t.tick.TickReady? <==>
                  && (if d.rev in s.cursors then s.cursors[d.rev].Some? && s.cursors[d.rev].value <= s.tick.at
                      else env.next(d.trigger, -1).Some? && env.next(d.trigger, -1).value <= s.tick.at)
                  && (forall id :: id in s.runs ==> s.runs[id].status != Queued && s.runs[id].status != Running)
                  && (forall id :: id in s.runs && (s.runs[id].rev == d.rev || id in d.continuing) ==>
                        !s.runs[id].interrupted && !(d.review && s.runs[id].status == Failed)))
            && (!t.tick.TickReady? ==> t.tick.TickIdle?) && t.runs == s.runs && t.cursors == s.cursors
  {
    assert forall id :: id in s.runs ==> s.runs[id].InFlight() == (s.runs[id].status == Queued || s.runs[id].status == Running);
  }

  /** A manual trigger begins exactly with a new key, on an enabled task, and under the same condition on its runs. */
  lemma TriggerBeginsExactly(env: Env, s: State, w: Worker, key: nat)
    ensures CanWork(env, s, w, TriggerBegin(key)) <==>
              && s.At(w).Idle? && s.def.enabled && Manual(key) !in s.runs
              && (forall id :: id in s.runs && (s.runs[id].rev == s.def.rev || id in s.def.continuing) ==>
                    !s.runs[id].interrupted && !(s.def.review && s.runs[id].status == Failed))
  {
  }

  /** Only the two commits add a run: queued, of the saved and enabled definition, and while nothing is in flight. */
  lemma RunsAreAddedExactly(env: Env, s: State, step: Step, id: RunId)
    requires Can(env, s, step) && id !in s.runs
    ensures id in Do(env, s, step).runs <==>
              && s.def.enabled && (forall j :: j in s.runs ==> s.runs[j].status != Queued && s.runs[j].status != Running)
              && (|| (step == Ticks(Commit) && s.tick.s.rev == s.def.rev && id == Due(s.def.rev, s.tick.due))
                  || (step.Works? && step.work == TriggerCommit && s.At(step.w).s.rev == s.def.rev
                      && id == Manual(s.At(step.w).key)))
    ensures id in Do(env, s, step).runs ==> Do(env, s, step).runs[id] == Run(s.def.rev, Queued, false, false)
  {
    QuietMeans(s);
    match step
    case Life(_) =>
    case Ticks(tick) => if tick.Commit? { CommitAdds(env, s, id); }
    case Works(w, work) => if work.TriggerCommit? { TriggerAdds(env, s, w, id); } else { OthersAddNone(env, s, w, work); }
  }

  lemma QuietMeans(s: State)
    ensures s.QuietBut(None) <==> forall j :: j in s.runs ==> s.runs[j].status != Queued && s.runs[j].status != Running
  {
    assert forall j :: j in s.runs ==> s.runs[j].InFlight() == (s.runs[j].status == Queued || s.runs[j].status == Running);
  }

  lemma CommitAdds(env: Env, s: State, id: RunId)
    requires CanTick(s, Commit) && id !in s.runs
    ensures var t := TickDo(env, s, Commit);
            && (id in t.runs <==>
                  s.def.enabled && s.QuietBut(None) && s.tick.s.rev == s.def.rev && id == Due(s.def.rev, s.tick.due))
            && (id in t.runs ==> t.runs[id] == Run(s.def.rev, Queued, false, false))
  {
  }

  lemma TriggerAdds(env: Env, s: State, w: Worker, id: RunId)
    requires CanWork(env, s, w, TriggerCommit) && id !in s.runs
    ensures var t := WorkDo(env, s, w, TriggerCommit);
            && (id in t.runs <==> s.def.enabled && s.QuietBut(None) && s.At(w).s.rev == s.def.rev && id == Manual(s.At(w).key))
            && (id in t.runs ==> t.runs[id] == Run(s.def.rev, Queued, false, false))
  {
  }

  lemma OthersAddNone(env: Env, s: State, w: Worker, step: WorkStep)
    requires CanWork(env, s, w, step) && !step.TriggerCommit?
    ensures WorkDo(env, s, w, step).runs.Keys == s.runs.Keys
  {
  }

  /** How the status of a run changes: it starts, ends, waits for its quota, or is requeued by the retry that chose it. */
  lemma StatusChangesExactly(env: Env, s: State, step: Step, id: RunId)
    requires Can(env, s, step) && id in s.runs
    ensures id in Do(env, s, step).runs
    ensures var was, now := s.runs[id].status, Do(env, s, step).runs[id].status;
            now != was ==>
              || (step == Life(Start(id)) && was == Queued && now == Running)
              || (step.Life? && step.life.Settle? && step.life.id == id && was in {Queued, Running}
                  && now in {Completed, Failed, Cancelled})
              || (step == Life(AwaitQuota(id)) && was == Running && now == Queued)
              || (step.Works? && step.work == RetryPatch && s.At(step.w) == Requeueing(id) && now == Queued)
    ensures var now := Do(env, s, step).runs[id].status;
            && (step == Life(Start(id)) ==> now == Running)
            && (step.Life? && step.life.Settle? && step.life.id == id ==> now == step.life.status)
            && (step == Life(AwaitQuota(id)) ==> now == Queued)
            && (step.Works? && step.work == RetryPatch && s.At(step.w) == Requeueing(id) ==> now == Queued)
  {
    StatusKinds(s.runs[id].status);
    match step
    case Life(life) => if life.Settle? { StatusKinds(life.status); }
    case Ticks(tick) => EndedInTick(env, s, tick, id);
    case Works(w, work) => WorkChangesStatus(env, s, w, work, id);
  }

  lemma StatusKinds(status: Status)
    ensures status in {Queued, Running, Completed, Failed, Cancelled}
  {
  }

  lemma WorkChangesStatus(env: Env, s: State, w: Worker, step: WorkStep, id: RunId)
    requires CanWork(env, s, w, step) && id in s.runs
    ensures id in WorkDo(env, s, w, step).runs
    ensures WorkDo(env, s, w, step).runs[id] == s.runs[id]
            || (step == RetryPatch && s.At(w) == Requeueing(id) && WorkDo(env, s, w, step).runs[id].status == Queued)
  {
  }

  /** When the other calls begin: an edit on the revision its caller read, a retry on a current, quota-blocked run of an enabled task. */
  lemma CallsBeginExactly(env: Env, s: State, w: Worker, expected: Revision, id: RunId)
    ensures CanWork(env, s, w, EditBegin(expected)) <==> s.At(w) == Idle && s.lock == Nobody && s.def.rev == expected
    ensures CanTick(s, Look) <==> s.tick == TickIdle && s.def.enabled
    ensures CanWork(env, s, w, RetryPick(id)) <==>
              && s.At(w) == Idle && s.def.enabled && id in s.runs && (s.runs[id].rev == s.def.rev || id in s.def.continuing)
              && s.runs[id].status in {Queued, Failed} && s.runs[id].quota && !s.runs[id].interrupted
              && (forall j :: j in s.runs && j != id ==> s.runs[j].status != Queued && s.runs[j].status != Running)
  {
    assert forall j :: j in s.runs ==> s.runs[j].InFlight() == (s.runs[j].status == Queued || s.runs[j].status == Running);
  }

  /** An edit goes on while nothing of the task is in flight or it may be staged, and while an occurrence lies ahead. */
  lemma EditGoesOnExactly(env: Env, s: State, w: Worker, stage: bool, trigger: nat, review: bool, preflight: bool)
    ensures s.At(w).Editing? ==>
              var t, d := WorkDo(env, s, w, EditList(stage)), s.At(w).current;
              var active := set id | id in s.runs && (s.runs[id].rev == d.rev || id in d.continuing)
                                     && s.runs[id].status in {Queued, Running};
              t == if active == {} || stage then s.(workers := s.workers[w := Snapshot(d, active)]) else s.Release(w)
    ensures s.At(w).Snapshot? ==>
              var t, d := WorkDo(env, s, w, EditCursor(trigger, review, preflight)), s.At(w).current;
              if env.next(trigger, s.now - 1) == None || |s.At(w).active| > 100 then t == s.Release(w)
              else
                && t.At(w) == Publishing(Definition(s.unused, trigger, d.enabled, review, preflight, s.At(w).active))
                && s.unused in t.cursors && t.unused == s.unused + 1
                && t.cursors[s.unused] == if trigger == d.trigger && Pending(env, s, d).Some? && s.now <= Pending(env, s, d).value
                                          then Pending(env, s, d) else env.next(trigger, s.now - 1)
  {
    if s.At(w).Editing? {
      var d := s.At(w).current;
      assert forall r: Run :: r.InFlight() == (r.status in {Queued, Running});
      assert Active(s, d) == set id | id in s.runs && (s.runs[id].rev == d.rev || id in d.continuing)
                                      && s.runs[id].status in {Queued, Running};
    }
  }

  /** Whoever is under way may fail between any two steps; only its own place and lock are given up. */
  lemma AnyoneMayFail(env: Env, s: State, w: Worker)
    ensures s.At(w) != Idle ==>
              && CanWork(env, s, w, Fail)
              && WorkDo(env, s, w, Fail) == s.(workers := s.workers[w := Idle], lock := if s.lock == By(w) then Nobody else s.lock)
    ensures s.tick != TickIdle ==>
              && CanTick(s, Abandon)
              && TickDo(env, s, Abandon) == s.(tick := TickIdle, lock := if s.lock == Ticker then Nobody else s.lock)
    ensures forall ms: nat :: CanLive(s, Wait(ms)) && Live(s, Wait(ms)) == s.(now := s.now + ms)
  {
  }

  /** The worker neither triggers the task nor retries this run. */
  predicate Aside(s: State, w: Worker, id: RunId) {
    var pc := s.At(w);
    !pc.Triggering? && !pc.TriggerHolding? && !pc.TriggerCreated? && (InRetry(pc) ==> pc.id != id)
  }

  /** An interrupted run of the definition has ended, and nobody got past it. */
  ghost predicate Stopped(s: State, d: Definition, id: RunId) {
    && s.def.rev == d.rev && s.def.continuing == d.continuing
    && id in s.runs && s.runs[id].interrupted && s.runs[id].status != Queued && s.runs[id].status != Running
    && (s.runs[id].rev == d.rev || id in d.continuing)
    && (s.tick.TickIdle? || (s.tick.TickRead? && s.tick.s.rev == d.rev && s.tick.s.continuing == d.continuing))
    && forall w :: Aside(s, w, id)
  }

  /** No run was added, and the cursor of the revision did not move. */
  ghost predicate SameProgress(s: State, t: State, rev: Revision) {
    t.runs.Keys == s.runs.Keys && t.log == s.log && (rev in t.cursors <==> rev in s.cursors)
    && (rev in s.cursors ==> t.cursors[rev] == s.cursors[rev])
  }

  lemma WorkStaysStopped(env: Env, s: State, w: Worker, step: WorkStep, d: Definition, id: RunId)
    requires Inv(s) && Stopped(s, d, id) && CanWork(env, s, w, step) && !step.EditPublish?
    ensures var t := WorkDo(env, s, w, step);
            t.def.rev == d.rev && t.def.continuing == d.continuing && t.tick == s.tick && SameProgress(s, t, d.rev)
    ensures id in WorkDo(env, s, w, step).runs && WorkDo(env, s, w, step).runs[id] == s.runs[id]
    ensures Aside(WorkDo(env, s, w, step), w, id)
  {
    assert Aside(s, w, id) && WorkerSound(s, w);
    OthersAddNone(env, s, w, step);
    WorkStaysAside(env, s, w, step, id);
    WorkChangesStatus(env, s, w, step, id);
  }

  lemma WorkStaysAside(env: Env, s: State, w: Worker, step: WorkStep, id: RunId)
    requires CanWork(env, s, w, step) && Aside(s, w, id)
    requires id in s.runs && s.runs[id].interrupted && (s.runs[id].rev == s.def.rev || id in s.def.continuing)
    ensures Aside(WorkDo(env, s, w, step), w, id)
  {
  }

  lemma StepStaysStopped(env: Env, s: State, step: Step, d: Definition, id: RunId)
    requires Inv(s) && Stopped(s, d, id) && Can(env, s, step) && !(step.Works? && step.work.EditPublish?)
    ensures Stopped(Do(env, s, step), d, id) && SameProgress(s, Do(env, s, step), d.rev)
  {
    var t := Do(env, s, step);
    if step.Works? {
      WorkStaysStopped(env, s, step.w, step.work, d, id);
    }
    forall w ensures Aside(t, w, id) {
      assert Aside(s, w, id);
      if step.Works? && w != step.w {
        WorkMovesOne(env, s, step.w, step.work, w);
      }
    }
  }

  /**
   * An interrupted run stops its task for good: whatever ticks, triggers, retries, pauses and failures
   * follow, no run is added and the cursor stands, until an edit publishes another definition.
   */
  lemma {:induction false} InterruptedStopsUntilEdited(env: Env, s: State, steps: seq<Step>, d: Definition, id: RunId)
    requires Inv(s) && Stopped(s, d, id) && Legal(env, s, steps)
    requires forall step :: step in steps ==> !(step.Works? && step.work.EditPublish?)
    ensures Stopped(After(env, s, steps), d, id) && SameProgress(s, After(env, s, steps), d.rev)
    decreases |steps|
  {
    if steps != [] {
      StepKeepsInv(env, s, steps[0]);
      StepStaysStopped(env, s, steps[0], d, id);
      InterruptedStopsUntilEdited(env, Do(env, s, steps[0]), steps[1..], d, id);
    }
  }

  // ---------------------------------------------------------------- finished runs

  /**
   * A run that has ended keeps its status in every step but one: the patch of a quota retry that
   * chose this run, whatever has become of the run since it was chosen.
   */
  lemma EndedChangesExactly(env: Env, s: State, step: Step, id: RunId)
    requires Can(env, s, step) && id in s.runs && !s.runs[id].InFlight()
    ensures id in Do(env, s, step).runs
    ensures Do(env, s, step).runs[id].status != s.runs[id].status <==>
              step.Works? && step.work.RetryPatch? && s.At(step.w) == Requeueing(id)
  {
    match step
    case Life(life) => EndedInLife(s, life, id);
    case Ticks(tick) => EndedInTick(env, s, tick, id);
    case Works(w, work) => EndedInWork(env, s, w, work, id);
  }

  lemma EndedInLife(s: State, step: LifeStep, id: RunId)
    requires CanLive(s, step) && id in s.runs && !s.runs[id].InFlight()
    ensures id in Live(s, step).runs && Live(s, step).runs[id] == s.runs[id]
  {
  }

  lemma EndedInTick(env: Env, s: State, step: TickStep, id: RunId)
    requires CanTick(s, step) && id in s.runs
    ensures id in TickDo(env, s, step).runs && TickDo(env, s, step).runs[id] == s.runs[id]
  {
  }

  lemma EndedInWork(env: Env, s: State, w: Worker, step: WorkStep, id: RunId)
    requires CanWork(env, s, w, step) && id in s.runs && !s.runs[id].InFlight()
    ensures var t := WorkDo(env, s, w, step);
            id in t.runs && (t.runs[id].status != s.runs[id].status <==> step.RetryPatch? && s.At(w) == Requeueing(id))
  {
  }

  lemma StartThenComplete(env: Env, s: State, id: RunId) returns (t: State)
    requires !env.startLock && Reachable(env, s) && id in s.runs && s.runs[id].status.Queued? && s.runs[id].rev == 0
    ensures Reachable(env, t) && t == s.(runs := t.runs) && t.runs == s.runs[id := ENDED]
  {
    t := ReachStep(env, s, Life(Start(id)));
    t := ReachStep(env, t, Life(Settle(id, Completed, false, false)));
  }

  /** A quota-blocked occurrence is chosen for a retry, and then simply runs to completion. */
  lemma RetryChoosesThenRuns(env: Env, id: RunId) returns (s: State)
    requires env == Env(TEN_LATER, false) && id == Due(0, 5)
    ensures Reachable(env, s) && s.workers == map[1 := Retrying(id)] && s.lock.Nobody?
    ensures s.runs == map[id := ENDED] && s.def == Task(false).def
  {
    s := Task(false);
    ReachStart(env, s);
    s := TickOnce(env, s, 5);
    s := ReachStep(env, s, Life(AwaitQuota(id)));
    s := ReachStep(env, s, Works(1, RetryPick(id)));
    s := StartThenComplete(env, s, id);
  }

  /** So, without the start lock, a completed occurrence can be queued again: it ended between choice and patch. */
  lemma RetryRepeatsCompleted() returns (env: Env, s: State, w: Worker)
    ensures !env.startLock && Reachable(env, s) && Can(env, s, Works(w, RetryPatch)) && s.At(w).Requeueing?
    ensures var id := s.At(w).id;
            id in s.runs && s.runs[id].status == Completed && Do(env, s, Works(w, RetryPatch)).runs[id].status == Queued
  {
    env := Env(TEN_LATER, false);
    s := RetryChoosesThenRuns(env, Due(0, 5));
    s := ReachStep(env, s, Works(1, RetryTake));
    s := ReachStep(env, s, Works(1, RetryCheck));
    w := 1;
  }

  /** A run that a retry may queue again: still waiting for its quota, or failed on quota alone. */
  predicate Requeuable(r: Run) {
    (r.status.Queued? || r.status.Failed?) && r.quota && !r.interrupted
  }

  ghost predicate Chosen(s: State, w: Worker) {
    w in s.workers && InRetry(s.workers[w]) ==> s.workers[w].id in s.runs && Requeuable(s.runs[s.workers[w].id])
  }

  ghost predicate RetrySound(s: State) {
    forall w :: Chosen(s, w)
  }

  lemma StepKeepsChosen(env: Env, s: State, step: Step, w: Worker)
    requires env.startLock && RetrySound(s) && Can(env, s, step)
    ensures Chosen(Do(env, s, step), w)
  {
    assert Chosen(s, w);
    if step.Works? {
      assert Chosen(s, step.w);
      WorkKeepsChosen(env, s, step.w, step.work, w);
    }
  }

  lemma WorkKeepsChosen(env: Env, s: State, v: Worker, step: WorkStep, w: Worker)
    requires CanWork(env, s, v, step) && Chosen(s, v) && Chosen(s, w)
    ensures Chosen(WorkDo(env, s, v, step), w)
  {
    WorkKeepsRequeuable(env, s, v, step);
    if v != w {
      WorkMovesOne(env, s, v, step, w);
    }
  }

  lemma WorkKeepsRequeuable(env: Env, s: State, v: Worker, step: WorkStep)
    requires CanWork(env, s, v, step) && Chosen(s, v)
    ensures forall id :: id in s.runs && Requeuable(s.runs[id]) ==>
              id in WorkDo(env, s, v, step).runs && Requeuable(WorkDo(env, s, v, step).runs[id])
  {
  }

  lemma {:induction false} RunKeepsChosen(env: Env, s: State, steps: seq<Step>)
    requires env.startLock && RetrySound(s) && Legal(env, s, steps)
    ensures RetrySound(After(env, s, steps))
    decreases |steps|
  {
    if steps != [] {
      forall w ensures Chosen(Do(env, s, steps[0]), w) {
        StepKeepsChosen(env, s, steps[0], w);
      }
      RunKeepsChosen(env, Do(env, s, steps[0]), steps[1..]);
    }
  }

  /** Every run about to be requeued is one that a retry may requeue. */
  ghost predicate RequeuesSoundly(env: Env) {
    forall s, w :: Reachable(env, s) && s.At(w).Requeueing? ==>
      var id := s.At(w).id;
      id in s.runs && s.runs[id].status in {Queued, Failed} && s.runs[id].quota && !s.runs[id].interrupted
  }

  /**
   * The patch of a retry does not look at the run again. It is the start lock around the whole retry,
   * and nothing else, that keeps it from repeating work that ran meanwhile.
   */
  lemma RetryIsSoundExactly(startLock: bool)
    ensures (forall env: Env :: env.startLock == startLock ==> RequeuesSoundly(env)) <==> startLock
  {
    if startLock {
      forall env: Env, s, w | env.startLock && Reachable(env, s) && s.At(w).Requeueing?
        ensures s.At(w).id in s.runs && Requeuable(s.runs[s.At(w).id])
      {
        var s0, steps :| Initial(env, s0) && Legal(env, s0, steps) && After(env, s0, steps) == s;
        RunKeepsChosen(env, s0, steps);
        assert Chosen(s, w);
      }
    } else {
      var env, s, w := RetryRepeatsCompleted();
      assert !RequeuesSoundly(env);
    }
  }
}
