/**
 * The scheduler's calls, each running alone. Every call computes a closed-form result, and every
 * such result is shown to be the outcome of a legal run of the dispatch protocol, so what the
 * protocol keeps over all interleavings holds for these bodies.
 */
module Scheduler {
  import opened Options
  import opened ScheduleProtocol

  // ---------------------------------------------------------------- what a call does, in one piece

  /**
   * One tick. `skip` stands for an unmet condition or a preflight that admits nothing; `written` is
   * false when the cursor write after the run creation fails.
   */
  ghost function Ticked(env: Env, v: State, skip: bool, written: bool): State {
    var d, due := v.def, Pending(env, v, v.def);
    if !d.enabled || due.None? || due.value > v.now || !v.QuietBut(None) || v.Holding(d) then v
    else
      var passed := v.cursors[d.rev := env.next(d.trigger, v.now)];
      if skip && (d.review || d.preflight) then v.(cursors := passed)
      else
        var id := Due(d.rev, due.value);
        var ran := if id in v.runs then v else Create(v, id, d.rev).(log := v.log + [id]);
        if written then ran.(cursors := passed) else ran
  }

  ghost predicate EditAccepted(env: Env, v: State, expected: Revision, trigger: nat, stage: bool) {
    && v.def.rev == expected && (stage || Active(v, v.def) == {})
    && |Active(v, v.def)| <= 100 && env.next(trigger, v.now - 1).Some?
  }

  ghost function Edited(env: Env, v: State, w: Worker, trigger: nat, review: bool, preflight: bool): State {
    v.(def := Definition(v.unused, trigger, v.def.enabled, review, preflight, Active(v, v.def)), unused := v.unused + 1,
       cursors := v.cursors[v.unused := EditedNext(env, v, v.def, trigger)], workers := v.workers[w := Idle])
  }

  ghost predicate TriggerAccepted(v: State, revision: Revision, key: nat) {
    v.def.enabled && v.def.rev == revision && Manual(key) !in v.runs && !v.Holding(v.def) && v.QuietBut(None)
  }

  ghost function Triggered(env: Env, v: State, w: Worker, key: nat): State {
    Create(v, Manual(key), v.def.rev).(workers := v.workers[w := Idle],
      cursors := if v.def.preflight then v.cursors[v.def.rev := Pending(env, v, v.def)] else v.cursors)
  }

  ghost function Retried(v: State, w: Worker, id: RunId): State
    requires id in v.runs
  {
    v.(runs := v.runs[id := v.runs[id].(status := Queued, quota := true)], workers := v.workers[w := Idle])
  }

  // ---------------------------------------------------------------- when a run is added

  /** The occurrence that waits under a revision: the saved one, or the first the trigger ever names. */
  ghost predicate Waits(env: Env, v: State, due: int) {
    if v.def.rev in v.cursors then v.cursors[v.def.rev] == Some(due) else env.next(v.def.trigger, -1) == Some(due)
  }

  /** An interrupted run of the definition, or under its condition a failed one. */
  ghost predicate AwaitsReview(v: State, id: RunId) {
    && id in v.runs && (v.runs[id].rev == v.def.rev || id in v.def.continuing)
    && (v.runs[id].interrupted || (v.def.review && v.runs[id].status == Failed))
  }

  /** Such a run stops its task until it is looked at. */
  lemma HeldIsNotDispatched(env: Env, v: State, skip: bool, written: bool, id: RunId)
    requires AwaitsReview(v, id)
    ensures Ticked(env, v, skip, written) == v
    ensures forall revision, key :: !TriggerAccepted(v, revision, key)
  {
    assert v.Holding(v.def);
  }

  /** And nothing but that, work in flight, a pause or a time still to come does. */
  lemma FreeIsDispatched(env: Env, v: State, skip: bool, written: bool, due: int)
    requires v.def.enabled && Waits(env, v, due) && due <= v.now && !(skip && (v.def.review || v.def.preflight))
    requires forall id :: id in v.runs ==> v.runs[id].status != Queued && v.runs[id].status != Running
    requires forall id :: !AwaitsReview(v, id)
    ensures var t, id := Ticked(env, v, skip, written), Due(v.def.rev, due);
            && t.runs == (if id in v.runs then v.runs else v.runs[id := Run(v.def.rev, Queued, false, false)])
            && t.cursors == (if written then v.cursors[v.def.rev := env.next(v.def.trigger, v.now)] else v.cursors)
            && t.def == v.def && t.now == v.now
    ensures forall key :: Manual(key) !in v.runs ==> TriggerAccepted(v, v.def.rev, key)
  {
    forall id | id in v.runs ensures !v.def.Holds(id, v.runs[id]) {
      assert !AwaitsReview(v, id);
    }
  }

  /** A tick that is not due, that finds work in flight, or whose task is paused does nothing. */
  lemma IdleTicks(env: Env, v: State, skip: bool, written: bool)
    requires || !v.def.enabled || (forall due :: Waits(env, v, due) ==> due > v.now)
             || exists id :: id in v.runs && (v.runs[id].status == Queued || v.runs[id].status == Running)
    ensures Ticked(env, v, skip, written) == v
  {
    if forall due :: Waits(env, v, due) ==> due > v.now {
      var due := if v.def.rev in v.cursors then v.cursors[v.def.rev] else env.next(v.def.trigger, -1);
      assert due.Some? ==> Waits(env, v, due.value);
    }
  }

  /** A skipped occurrence only moves the cursor past the present. */
  lemma SkippedIsPassed(env: Env, v: State, written: bool, due: int)
    requires v.def.enabled && Waits(env, v, due) && due <= v.now && (v.def.review || v.def.preflight)
    requires v.QuietBut(None) && !v.Holding(v.def)
    ensures Ticked(env, v, true, written) == v.(cursors := v.cursors[v.def.rev := env.next(v.def.trigger, v.now)])
  {
  }

  // ---------------------------------------------------------------- each is a run of the protocol

  ghost predicate Resting(v: State) {
    v.lock.Nobody? && v.tick.TickIdle?
  }

  ghost predicate Runs(env: Env, v: State, t: State) {
    exists steps :: Legal(env, v, steps) && After(env, v, steps) == t
  }

  lemma RunsZero(env: Env, v: State)
    ensures Runs(env, v, v)
  {
    assert Legal(env, v, []) && After(env, v, []) == v;
  }

  lemma RunsOne(env: Env, v: State, t: State, step: Step) returns (u: State)
    requires Runs(env, v, t) && Can(env, t, step)
    ensures u == Do(env, t, step) && Runs(env, v, u)
  {
    var steps :| Legal(env, v, steps) && After(env, v, steps) == t;
    Extend(env, v, steps, step);
    u := Do(env, t, step);
  }

  lemma TickDispatches(env: Env, v: State, t: State, written: bool) returns (u: State)
    requires Runs(env, v, t) && t.tick.TickReady? && t.lock.Nobody? && t.def == t.tick.s && t.def.enabled && t.QuietBut(None)
    ensures Runs(env, v, u)
    ensures var id := Due(t.def.rev, t.tick.due);
            var ran := (if id in t.runs then t else Create(t, id, t.def.rev).(log := t.log + [id])).(tick := TickIdle);
            u == if written then ran.(cursors := t.cursors[t.def.rev := t.tick.future]) else ran
  {
    u := RunsOne(env, v, t, Ticks(Take));
    u := RunsOne(env, v, u, Ticks(Commit));
    u := RunsOne(env, v, u, Ticks(if written then Advance else Abandon));
  }

  lemma TickIsRun(env: Env, v: State, skip: bool, written: bool)
    requires Resting(v)
    ensures Runs(env, v, Ticked(env, v, skip, written))
  {
    RunsZero(env, v);
    if Ticked(env, v, skip, written) != v || (v.def.enabled && Pending(env, v, v.def).Some? && Pending(env, v, v.def).value <= v.now
                                             && v.QuietBut(None) && !v.Holding(v.def)) {
      var t := RunsOne(env, v, v, Ticks(Look));
      t := RunsOne(env, v, t, Ticks(Check));
      if skip && (v.def.review || v.def.preflight) {
        t := RunsOne(env, v, t, Ticks(Skip));
      } else {
        t := TickDispatches(env, v, t, written);
      }
    }
  }

  lemma EditSnapshots(env: Env, v: State, w: Worker, stage: bool) returns (t: State)
    requires Resting(v) && v.At(w).Idle? && (stage || Active(v, v.def) == {})
    ensures Runs(env, v, t) && t == v.(workers := t.workers, lock := By(w))
    ensures t.workers == v.workers[w := Snapshot(v.def, Active(v, v.def))]
  {
    RunsZero(env, v);
    t := RunsOne(env, v, v, Works(w, EditBegin(v.def.rev)));
    t := RunsOne(env, v, t, Works(w, EditList(stage)));
  }

  lemma EditIsRun(env: Env, v: State, w: Worker, trigger: nat, review: bool, preflight: bool, stage: bool)
    requires Resting(v) && v.At(w).Idle? && EditAccepted(env, v, v.def.rev, trigger, stage)
    ensures Runs(env, v, Edited(env, v, w, trigger, review, preflight))
  {
    var t := EditSnapshots(env, v, w, stage);
    t := RunsOne(env, v, t, Works(w, EditCursor(trigger, review, preflight)));
    t := RunsOne(env, v, t, Works(w, EditPublish));
    assert t.workers == v.workers[w := Idle];
  }

  /** An edit leaves an occurrence to come, and the pending one itself when it lies ahead under the same trigger. */
  lemma EditKeepsPending(env: Env, v: State, w: Worker, trigger: nat, review: bool, preflight: bool, stage: bool)
    requires Sound(env) && v.def.rev < v.unused && EditAccepted(env, v, v.def.rev, trigger, stage)
    ensures var before, t := Pending(env, v, v.def), Edited(env, v, w, trigger, review, preflight);
            var after := Pending(env, t, t.def);
            && after.Some? && after.value >= v.now
            && (trigger == v.def.trigger && before.Some? && before.value >= v.now ==> after == before)
            && Pending(env, t, v.def) == before
  {
  }

  lemma EnableIsRun(env: Env, v: State, w: Worker, on: bool)
    requires Resting(v) && v.At(w).Idle?
    ensures Runs(env, v, v.(def := v.def.(enabled := on), workers := v.workers[w := Idle]))
  {
    RunsZero(env, v);
    var t := RunsOne(env, v, v, Works(w, EnableBegin(on)));
    t := RunsOne(env, v, t, Works(w, EnablePublish));
    assert t.workers == v.workers[w := Idle];
  }

  lemma TriggerLocks(env: Env, v: State, w: Worker, key: nat) returns (t: State)
    requires Resting(v) && v.At(w).Idle? && TriggerAccepted(v, v.def.rev, key)
    ensures Runs(env, v, t) && t == v.Lock(w, TriggerHolding(v.def, key, Pending(env, v, v.def)))
  {
    RunsZero(env, v);
    t := RunsOne(env, v, v, Works(w, TriggerBegin(key)));
    t := RunsOne(env, v, t, Works(w, TriggerTake));
    assert t.workers == v.workers[w := TriggerHolding(v.def, key, Pending(env, v, v.def))];
  }

  lemma TriggerIsRun(env: Env, v: State, w: Worker, key: nat)
    requires Resting(v) && v.At(w).Idle? && TriggerAccepted(v, v.def.rev, key)
    ensures Runs(env, v, Triggered(env, v, w, key))
  {
    var t := TriggerLocks(env, v, w, key);
    t := RunsOne(env, v, t, Works(w, TriggerCommit));
    t := RunsOne(env, v, t, Works(w, TriggerReceipt));
    assert t.workers == v.workers[w := Idle];
  }

  lemma RetryIsRun(env: Env, v: State, w: Worker, id: RunId)
    requires Resting(v) && v.At(w).Idle? && v.def.enabled && Eligible(v, id)
    ensures Runs(env, v, Retried(v, w, id))
  {
    var t := RetryTakes(env, v, w, id);
    t := RunsOne(env, v, t, Works(w, RetryCheck));
    t := RunsOne(env, v, t, Works(w, RetryPatch));
    assert t.workers == v.workers[w := Idle];
  }

  lemma RetryTakes(env: Env, v: State, w: Worker, id: RunId) returns (t: State)
    requires Resting(v) && v.At(w).Idle? && v.def.enabled && Eligible(v, id)
    ensures Runs(env, v, t) && t == v.(workers := t.workers, lock := By(w)) && t.workers == v.workers[w := RetryHolding(id)]
  {
    RunsZero(env, v);
    t := RunsOne(env, v, v, Works(w, RetryPick(id)));
    t := RunsOne(env, v, t, Works(w, RetryTake));
  }

  // ---------------------------------------------------------------- the calls

  class TaskScheduler {
    var now: int
    var def: Definition
    var unused: Revision
    var cursors: map<Revision, Option<int>>
    var runs: map<RunId, Run>
    ghost var log: seq<RunId>
    ghost var workers: map<Worker, Pc>

    /** The task as the protocol sees it between calls: nobody holds its lock. */
    ghost function View(): State
      reads this
    {
      State(now, def, unused, cursors, runs, log, Nobody, TickIdle, workers)
    }

    constructor (def: Definition, unused: Revision, cursors: map<Revision, Option<int>>, now: int)
      ensures View() == State(now, def, unused, cursors, map[], [], Nobody, TickIdle, map[])
    {
      this.now, this.def, this.unused, this.cursors := now, def, unused, cursors;
      runs, log, workers := map[], [], map[];
    }

    method PendingOccurrence(env: Env) returns (next: Option<int>)
      ensures next == Pending(env, View(), def)
    {
      next := if def.rev in cursors then cursors[def.rev] else env.next(def.trigger, -1);
    }

    method Tick(env: Env, skip: bool, written: bool)
      modifies this
      ensures View() == Ticked(env, old(View()), skip, written)
      ensures Runs(env, old(View()), View())
      ensures (exists id :: old(AwaitsReview(View(), id))) ==> runs == old(runs) && cursors == old(cursors)
    {
      TickIsRun(env, View(), skip, written);
      forall id | AwaitsReview(View(), id) ensures Ticked(env, View(), skip, written) == View() {
        HeldIsNotDispatched(env, View(), skip, written, id);
      }
      if !def.enabled {
        return;
      }
      var due := PendingOccurrence(env);
      if due.None? || due.value > now {
        return;
      }
      if exists id :: id in runs && (runs[id].InFlight() || def.Holds(id, runs[id])) {
        return;
      }
      var future := env.next(def.trigger, now);
      if skip && (def.review || def.preflight) {
        cursors := cursors[def.rev := future];
        return;
      }
      var id := Due(def.rev, due.value);
      if id !in runs {
        runs, log := runs[id := Run(def.rev, Queued, false, false)], log + [id];
      }
      if written {
        cursors := cursors[def.rev := future];
      }
    }

    /** Replaces the definition from the revision the caller read; refused while work is in flight unless staged. */
    method Edit(env: Env, ghost w: Worker, expected: Revision, trigger: nat, review: bool, preflight: bool, stage: bool)
        returns (ok: bool)
      requires View().At(w).Idle?
      modifies this
      ensures ok <==> old(EditAccepted(env, View(), expected, trigger, stage))
      ensures View() == if ok then Edited(env, old(View()), w, trigger, review, preflight) else old(View())
      ensures Runs(env, old(View()), View())
    {
      RunsZero(env, View());
      var active;
      ok, active := MayEdit(env, expected, trigger, stage);
      if !ok {
        return;
      }
      var next := env.next(trigger, now - 1);
      EditIsRun(env, View(), w, trigger, review, preflight, stage);
      var pending := PendingOccurrence(env);
      if trigger == def.trigger && pending.Some? && pending.value >= now {
        next := pending;
      }
      Publish(w, Definition(unused, trigger, def.enabled, review, preflight, active), next);
    }

    /** Whether an edit goes through, and the occurrences that it would let go on. */
    method MayEdit(env: Env, expected: Revision, trigger: nat, stage: bool) returns (ok: bool, active: set<RunId>)
      ensures ok <==> EditAccepted(env, View(), expected, trigger, stage)
      ensures active == Active(View(), def)
    {
      active := set id | id in runs && def.Owns(id, runs[id]) && runs[id].InFlight();
      ok := def.rev == expected && (active == {} || stage) && |active| <= 100 && env.next(trigger, now - 1).Some?;
    }

    /** The cursor of the new revision is written before its definition. */
    method Publish(ghost w: Worker, next: Definition, at: Option<int>)
      requires next.rev == unused
      modifies this
      ensures View() == old(View()).(def := next, cursors := old(cursors)[next.rev := at], unused := next.rev + 1,
              workers := old(workers)[w := Idle])
    {
      cursors := cursors[unused := at];
      def := next;
      unused, workers := unused + 1, workers[w := Idle];
    }

    /** Pausing and resuming keep the revision, the cursor and the continuing occurrences. */
    method Enable(env: Env, ghost w: Worker, on: bool)
      requires View().At(w).Idle?
      modifies this
      ensures View() == old(View().(def := def.(enabled := on), workers := workers[w := Idle]))
      ensures Runs(env, old(View()), View())
    {
      EnableIsRun(env, View(), w, on);
      def, workers := def.(enabled := on), workers[w := Idle];
    }

    /** A manual run under the caller's key: the same key reads back the same run. */
    method Trigger(env: Env, ghost w: Worker, revision: Revision, key: nat) returns (r: Result<RunId>)
      requires View().At(w).Idle?
      modifies this
      ensures View() == if old(TriggerAccepted(View(), revision, key)) then Triggered(env, old(View()), w, key) else old(View())
      ensures r == if old(TriggerAccepted(View(), revision, key))
                   || (def.enabled && def.rev == revision && Manual(key) in old(runs) && old(runs)[Manual(key)].rev == def.rev)
                   then Ok(Manual(key)) else Refused
      ensures Runs(env, old(View()), View())
      ensures (exists id :: old(AwaitsReview(View(), id))) ==>
                runs == old(runs) && cursors == old(cursors) && (r.Ok? ==> Manual(key) in old(runs))
    {
      RunsZero(env, View());
      forall id | AwaitsReview(View(), id) ensures !TriggerAccepted(View(), revision, key) {
        HeldIsNotDispatched(env, View(), false, true, id);
      }
      var id := Manual(key);
      if !def.enabled || def.rev != revision {
        return Refused;
      }
      if id in runs {
        return if runs[id].rev != def.rev then Refused else Ok(id);
      }
      if exists j :: j in runs && def.Holds(j, runs[j]) {
        return Refused;
      }
      var saved := PendingOccurrence(env);
      if exists j :: j in runs && runs[j].InFlight() {
        return Refused;
      }
      TriggerIsRun(env, View(), w, key);
      runs, workers := runs[id := Run(def.rev, Queued, false, false)], workers[w := Idle];
      if def.preflight {
        cursors := cursors[def.rev := saved];
      }
      return Ok(id);
    }

    /** Queues a quota-blocked occurrence again. */
    method RetryQuota(env: Env, ghost w: Worker, id: RunId) returns (ok: bool)
      requires View().At(w).Idle?
      modifies this
      ensures ok <==> def.enabled && old(Eligible(View(), id))
      ensures View() == if ok then Retried(old(View()), w, id) else old(View())
      ensures Runs(env, old(View()), View())
    {
      RunsZero(env, View());
      if id !in runs || !def.enabled || !def.Owns(id, runs[id]) || runs[id].interrupted || !runs[id].quota
         || !(runs[id].status.Queued? || runs[id].status.Failed?) || exists j :: j in runs && j != id && runs[j].InFlight() {
        return false;
      }
      RetryIsRun(env, View(), w, id);
      runs, workers := runs[id := runs[id].(status := Queued, quota := true)], workers[w := Idle];
      ok := true;
    }
  }
}
