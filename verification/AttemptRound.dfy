/** One round of attempts: launches, skips and settlements in the order in which they happen. */
module AttemptRound {
  import opened Options
  import opened Setups
  import opened Sequences

  predicate Launched(a: Attempt) {
    !a.outcome.Skipped?
  }

  /** A skip, or a launched attempt after which the round may still go on. */
  predicate GoesOn(a: Attempt) {
    Launched(a) ==> a.category.Some? && (MayContinue(a.category.value) || a.category.value.Untyped?)
  }

  /** No earlier attempt of the round closed this login scope. */
  ghost predicate OpenTo(round: seq<Attempt>, scope: Scope) {
    forall a :: a in round && Exhausting(a) ==> a.scope != scope
  }

  ghost predicate FromCandidates(candidates: seq<Preset>, round: seq<Attempt>) {
    forall a :: a in round ==> a.preset in candidates && a.scope == QuotaScope(a.preset)
  }

  ghost predicate OpenWhenLaunched(round: seq<Attempt>) {
    forall j :: 0 <= j < |round| && Launched(round[j]) ==> OpenTo(round[..j], round[j].scope)
  }

  /** What a round of attempts keeps, whatever the launches and the quota records do. */
  ghost predicate RoundSound(candidates: seq<Preset>, round: seq<Attempt>) {
    && FromCandidates(candidates, round) && OncePer(round) && OpenWhenLaunched(round)
    && (forall i :: 0 <= i < |round| - 1 ==> GoesOn(round[i]))
  }

  /** The round is sound and its last attempt lets it go on. */
  ghost predicate RoundOpen(candidates: seq<Preset>, round: seq<Attempt>) {
    RoundSound(candidates, round) && forall a :: a in round ==> GoesOn(a)
  }

  function Begin(p: Preset): Attempt {
    Attempt(p, QuotaScope(p), Pending, None, None)
  }

  /** One more attempt for a setup not yet tried: a skip, or a launch into an open scope. */
  lemma AppendKeeps(candidates: seq<Preset>, round: seq<Attempt>, a: Attempt)
    requires RoundOpen(candidates, round) && a.preset in candidates && a.scope == QuotaScope(a.preset) && !Tried(round, a.preset)
    requires Launched(a) ==> OpenTo(round, a.scope)
    ensures RoundSound(candidates, round + [a])
    ensures GoesOn(a) ==> RoundOpen(candidates, round + [a])
  {
    var longer := round + [a];
    forall j | 0 <= j < |longer| && Launched(longer[j]) ensures OpenTo(longer[..j], longer[j].scope) {
      assert longer[..j] == round[..j];
    }
  }

  lemma {:induction false} SkipsKeep(candidates: seq<Preset>, round: seq<Attempt>, skipped: seq<Attempt>,
      health: SetupHealth, now: int)
    requires RoundOpen(candidates, round) && OncePer(skipped)
    requires forall a :: a in skipped ==> SkipOf(candidates, round, health, now, a)
    ensures RoundOpen(candidates, round + skipped)
  {
    if skipped == [] {
      assert round + skipped == round;
    } else {
      var init, last := skipped[..|skipped| - 1], skipped[|skipped| - 1];
      SkipsKeep(candidates, round, init, health, now);
      assert skipped == init + [last] && round + skipped == round + init + [last];
      assert last in skipped;
      AppendKeeps(candidates, round + init, last);
    }
  }

  /** Setups of one login scope meet the same obstacle. */
  lemma ObstacleIsOfScope(attempts: seq<Attempt>, health: SetupHealth, now: int, p: Preset, q: Preset)
    ensures QuotaScope(p) == QuotaScope(q) ==> Obstacle(attempts, health, now, p) == Obstacle(attempts, health, now, q)
  {
  }

  /** What the chooser offers may be launched; what it skips is recorded without harm. */
  lemma AdvanceKeeps(candidates: seq<Preset>, round: seq<Attempt>, health: SetupHealth, now: int)
    requires Distinct(candidates) && RoundOpen(candidates, round)
    ensures var c := Next(candidates, round, health, now);
            && RoundOpen(candidates, round + c.skipped)
            && (c.preset.Some? ==> RoundSound(candidates, round + c.skipped + [Begin(c.preset.value)]))
  {
    var c := Next(candidates, round, health, now);
    NextIsFresh(candidates, round, health, now);
    SkipsKeep(candidates, round, c.skipped, health, now);
    if c.preset.Some? {
      var scope := QuotaScope(c.preset.value);
      ExhaustedExactly(round, scope);
      forall a | a in c.skipped ensures a.scope != scope {
        assert SkipOf(candidates, round, health, now, a);
        ObstacleIsOfScope(round, health, now, a.preset, c.preset.value);
      }
      AppendKeeps(candidates, round + c.skipped, Begin(c.preset.value));
    }
  }

  lemma SettleKeeps(candidates: seq<Preset>, round: seq<Attempt>, outcome: Outcome, category: Option<Category>,
      resetAt: Option<int>)
    requires round != [] && RoundSound(candidates, round) && Launched(round[|round| - 1]) && !outcome.Skipped?
    ensures var last := round[|round| - 1].(outcome := outcome, category := category, resetAt := resetAt);
            && RoundSound(candidates, round[|round| - 1 := last])
            && (GoesOn(last) ==> RoundOpen(candidates, round[|round| - 1 := last]))
  {
    var last := round[|round| - 1].(outcome := outcome, category := category, resetAt := resetAt);
    var settled := round[|round| - 1 := last];
    forall j | 0 <= j < |settled| && Launched(settled[j]) ensures OpenTo(settled[..j], settled[j].scope) {
      assert settled[..j] == round[..j] && Launched(round[j]);
    }
    forall a | a in settled ensures a.preset in candidates && a.scope == QuotaScope(a.preset) {
      assert round[|round| - 1] in round;
    }
  }

  /** A round never holds more attempts than there are candidates. */
  lemma RoundIsBounded(candidates: seq<Preset>, round: seq<Attempt>)
    requires RoundSound(candidates, round)
    ensures |round| <= |candidates|
  {
    var presets := seq(|round|, i requires 0 <= i < |round| => round[i].preset);
    forall p | p in presets ensures p in candidates {
      var i :| 0 <= i < |round| && presets[i] == p;
      assert round[i] in round;
    }
    NoLongerThan(presets, set p | p in candidates);
    PoolIsSmall(candidates);
  }

  /** When nothing is left to launch, every candidate was tried or is now recorded as skipped. */
  lemma {:induction false} ChooserGivesUpOnlyAtTheEnd(candidates: seq<Preset>, round: seq<Attempt>, health: SetupHealth, now: int)
    requires Next(candidates, round, health, now).preset.None?
    ensures forall p :: p in candidates ==> Tried(round + Next(candidates, round, health, now).skipped, p)
  {
    if candidates != [] {
      var rest, c := Next(candidates[1..], round, health, now), Next(candidates, round, health, now);
      ChooserGivesUpOnlyAtTheEnd(candidates[1..], round, health, now);
      MoreTried(round + rest.skipped, round + c.skipped);
      MoreTried(round, round + c.skipped);
      if !Tried(round, candidates[0]) {
        assert c.skipped[0] in round + c.skipped && SameChoice(c.skipped[0].preset, candidates[0]);
      }
      assert forall p :: p in candidates <==> p == candidates[0] || p in candidates[1..];
    }
  }

  lemma MoreTried(fewer: seq<Attempt>, more: seq<Attempt>)
    requires forall a :: a in fewer ==> a in more
    ensures forall p :: Tried(fewer, p) ==> Tried(more, p)
  {
    forall p | Tried(fewer, p) ensures Tried(more, p) {
      var a :| a in fewer && SameChoice(a.preset, p);
      assert a in more;
    }
  }

  // ---------------------------------------------------------------- advancing

  /** The chooser's answer, and whether quota health is ignored from now on. */
  datatype Advance = Advance(choice: Choice, ignore: bool)

  function Record(ignore: bool, health: SetupHealth): SetupHealth {
    if ignore then map[] else health
  }

  /** Work its owner waits for is not refused because every login cools down: the round then ignores quota health. */
  function Advanced(candidates: seq<Preset>, round: seq<Attempt>, scheduled: bool, ignore: bool, health: SetupHealth,
      now: int): Advance {
    var asked := Next(candidates, round, Record(ignore, health), now);
    if asked.preset.None? && !scheduled && round == [] && !ignore then Advance(Next(candidates, round, map[], now), true)
        else Advance(asked, ignore)
  }

  /**
   * Scheduled work starts only on a login that is not cooling down; work its owner waits for always
   * starts, and on its first setup when all cool down.
   */
  lemma OwnersWorkAlwaysStarts(candidates: seq<Preset>, health: SetupHealth, now: int)
    requires candidates != [] && now >= 0
    ensures Advanced(candidates, [], false, false, health, now).choice.preset.Some?
    ensures QuotaWait(candidates, health, now).Some? ==>
            Advanced(candidates, [], false, false, health, now).choice == Choice([], Some(candidates[0]))
    ensures Advanced(candidates, [], true, false, health, now).choice.preset.Some? <==> QuotaWait(candidates, health, now).None?
  {
    GateAgrees(candidates, health, now);
    assert Obstacle([], map[], now, candidates[0]).None?;
  }

  /** Quota health is ignored only from the start of a round, for work its owner waits for. */
  lemma HealthCountsLater(candidates: seq<Preset>, round: seq<Attempt>, scheduled: bool, ignore: bool,
      health: SetupHealth, now: int)
    requires scheduled || ignore || round != []
    ensures var used := if ignore then map[] else health;
            Advanced(candidates, round, scheduled, ignore, health, now) == Advance(Next(candidates, round, used, now), ignore)
  {
  }

  lemma AdvancedKeeps(candidates: seq<Preset>, round: seq<Attempt>, scheduled: bool, ignore: bool, health: SetupHealth, now: int)
    requires Distinct(candidates) && RoundOpen(candidates, round)
    ensures var c := Advanced(candidates, round, scheduled, ignore, health, now).choice;
            AfterAdvance(candidates, round + c.skipped, c.preset)
  {
    var a := Advanced(candidates, round, scheduled, ignore, health, now);
    AdvanceKeeps(candidates, round, Record(a.ignore, health), now);
    if a.choice.preset.None? {
      ChooserGivesUpOnlyAtTheEnd(candidates, round, Record(a.ignore, health), now);
    }
  }

  ghost predicate AllTried(candidates: seq<Preset>, round: seq<Attempt>) {
    forall p {:trigger Tried(round, p)} :: p in candidates ==> Tried(round, p)
  }

  /** After an advance: a setup that may be launched now, or a round that used up its candidates. */
  ghost predicate AfterAdvance(candidates: seq<Preset>, round: seq<Attempt>, next: Option<Preset>) {
    RoundOpen(candidates, round) && if next.Some? then RoundSound(candidates, round + [Begin(next.value)])
        else AllTried(candidates, round)
  }

  // ---------------------------------------------------------------- the loop

  datatype LaunchResult = CliMissing
                        | LaunchFailed
                        | Ended(failed: bool, cancelled: bool, interrupted: bool, workBegan: bool, rejection: Option<Rejection>)

  /** How an attempt that was launched is settled, and whether the round goes on. */
  function Settled(p: Preset, result: LaunchResult): (Attempt, bool) {
    match result
    case CliMissing => (Attempt(p, QuotaScope(p), Failed, Some(CliUnavailable), None), true)
    case LaunchFailed => (Attempt(p, QuotaScope(p), Failed, Some(Uncertain), None), false)
    case Ended(failed, cancelled, interrupted, workBegan, rejection) =>
      if cancelled || !failed then (Attempt(p, QuotaScope(p), if cancelled then Cancelled else Completed, None, None), false)
      else
        var failure := AttemptFailure(workBegan, rejection);
        (Attempt(p, QuotaScope(p), Failed, Some(failure.category), failure.resetAt), failure.continues && !interrupted)
  }

  /** A launch ends with what an observer can report. */
  predicate FromObserver(result: LaunchResult) {
    result.Ended? ==> Reportable(result.rejection)
  }

  /** No untyped rejection stands at the end. */
  predicate Typed(result: LaunchResult) {
    result.Ended? && result.rejection.Some? ==> StartupCategory(result.rejection.value.category)
  }

  /** No launched attempt is recorded under an untyped category, so whatever the round went on after is one of the seven. */
  ghost predicate TypedRound(round: seq<Attempt>) {
    forall a :: a in round && Launched(a) && a.category.Some? ==> !a.category.value.Untyped?
  }

  ghost predicate TypedAs(world: World, round: seq<Attempt>) {
    AllTyped(world) ==> TypedRound(round)
  }

  /** What the round meets at each of its moments: authority, quota records, the clock and each launch. */
  datatype World = World(allowed: nat -> bool, health: nat -> SetupHealth, now: nat -> int, launch: nat -> LaunchResult)

  ghost predicate AllObserved(world: World) {
    forall k :: FromObserver(world.launch(k))
  }

  ghost predicate AllTyped(world: World) {
    forall k :: Typed(world.launch(k))
  }

  /**
   * Nothing may follow a launch that failed, completed, or was cancelled or interrupted; nor a failure
   * without a rejection, with an access denial, or, once work began, with anything but a usage limit.
   */
  predicate Final(result: LaunchResult) {
    match result
    case CliMissing => false
    case LaunchFailed => true
    case Ended(failed, cancelled, interrupted, workBegan, rejection) =>
      || !failed || cancelled || interrupted || rejection.None? || rejection.value.category.AccessDenied?
      || (workBegan && !rejection.value.category.Quota? && !rejection.value.category.CreditsRequired?)
  }

  /** The record says why it is the last one. */
  predicate SaysWhy(a: Attempt, result: LaunchResult) {
    match result
    case CliMissing => false
    case LaunchFailed => a.outcome.Failed? && a.category == Some(Uncertain)
    case Ended(failed, cancelled, interrupted, workBegan, rejection) =>
      if cancelled then a.outcome.Cancelled? && a.category.None?
      else if !failed then a.outcome.Completed? && a.category.None?
      else
        && a.outcome.Failed? && a.category.Some?
        && (interrupted || a.category.value.AccessDenied? || a.category.value.Uncertain? || a.category.value.AfterWork?)
        && (a.category.value.AccessDenied? ==> rejection.Some? && rejection.value.category.AccessDenied?)
        && (a.category.value.Uncertain? ==> !workBegan && rejection.None?)
        && (a.category.value.AfterWork? ==> workBegan)
  }

  /** What is recorded of a launch, and that the round goes on exactly behind one that is not final. */
  lemma SettledMeans(p: Preset, result: LaunchResult)
    requires FromObserver(result)
    ensures var (a, more) := Settled(p, result);
            && a.preset == p && a.scope == QuotaScope(p) && Launched(a)
            && (more <==> !Final(result)) && (Final(result) ==> SaysWhy(a, result))
            && (result.CliMissing? ==> a == Attempt(p, QuotaScope(p), Failed, Some(CliUnavailable), None))
            && (more && result.Ended? ==>
                  a.outcome.Failed? && a.resetAt == result.rejection.value.resetAt
                  && a.category == Some(if !result.workBegan then result.rejection.value.category
                                        else if result.rejection.value.category.Quota? then QuotaAfterWork else CreditsAfterWork))
  {
    if result.Ended? {
      FailureContinuesExactly(result.workBegan, result.rejection);
    }
  }

  /** A round ends because authority was lost, because its last attempt forbids another, or at the end of the list. */
  ghost predicate EndsForAReason(candidates: seq<Preset>, round: seq<Attempt>, last: Option<LaunchResult>, denied: bool) {
    || denied
    || AllTried(candidates, round)
    || (last.Some? && round != [] && Final(last.value) && SaysWhy(round[|round| - 1], last.value))
  }

  function LaunchedOf(round: seq<Attempt>): seq<Attempt> {
    Filter(round, Launched)
  }

  lemma {:induction false} OnlySkips(skipped: seq<Attempt>)
    requires forall a :: a in skipped ==> a.outcome.Skipped?
    ensures LaunchedOf(skipped) == []
  {
    if skipped != [] {
      assert skipped[0] in skipped;
      OnlySkips(skipped[1..]);
    }
  }

  /** Each launch is recorded in its turn, under what it ended with, and all but the last let the round go on. */
  ghost predicate InTheirTurn(world: World, round: seq<Attempt>, launches: nat) {
    && |LaunchedOf(round)| == launches
    && (forall k :: 0 <= k < launches ==> LaunchedOf(round)[k] == Settled(LaunchedOf(round)[k].preset, world.launch(k)).0)
    && (forall k :: 0 <= k < launches - 1 ==> !Final(world.launch(k)))
  }

  /** What holds between two launches in a world: why the round stands where it does, and what is recorded so far. */
  ghost predicate InWorld(candidates: seq<Preset>, world: World, round: seq<Attempt>, launches: nat, next: Option<Preset>,
      last: Option<LaunchResult>, denied: bool) {
    && InRound(candidates, round, next, last, denied) && (denied ==> !world.allowed(launches))
    && InTheirTurn(world, round, launches) && last == (if launches == 0 then None else Some(world.launch(launches - 1)))
    && (next.Some? && launches > 0 ==> !Final(world.launch(launches - 1))) && TypedAs(world, round)
  }

  lemma LaunchesAreFew(round: seq<Attempt>)
    ensures |LaunchedOf(round)| <= |round|
  {
    FilterMembers(round, Launched);
  }

  lemma TurnIsRecorded(world: World, before: seq<Attempt>, round: seq<Attempt>, p: Preset, launches: nat)
    requires InTheirTurn(world, before, launches) && (launches > 0 ==> !Final(world.launch(launches - 1)))
    requires LaunchedOf(round) == LaunchedOf(before) + [Settled(p, world.launch(launches)).0]
    ensures InTheirTurn(world, round, launches + 1)
  {
  }

  /** Skips and launches in a longer round. */
  lemma LaunchedGrows(candidates: seq<Preset>, round: seq<Attempt>, scheduled: bool, ignore: bool, health: SetupHealth, now: int)
    ensures LaunchedOf(round + Advanced(candidates, round, scheduled, ignore, health, now).choice.skipped) == LaunchedOf(round)
    ensures forall a :: Launched(a) ==> LaunchedOf(round + [a]) == LaunchedOf(round) + [a]
  {
    var skipped := Advanced(candidates, round, scheduled, ignore, health, now).choice.skipped;
    SkipsAreSkipped(candidates, round, Record(ignore, health), now);
    SkipsAreSkipped(candidates, round, map[], now);
    OnlySkips(skipped);
    FilterConcat(round, skipped, Launched);
    forall a | Launched(a) ensures LaunchedOf(round + [a]) == LaunchedOf(round) + [a] {
      FilterConcat(round, [a], Launched);
      FilterPair(a, a, Launched);
    }
  }

  lemma SettledKeeps(candidates: seq<Preset>, round: seq<Attempt>, p: Preset, result: LaunchResult)
    requires RoundOpen(candidates, round) && RoundSound(candidates, round + [Begin(p)]) && FromObserver(result)
    ensures var (a, more) := Settled(p, result);
            RoundSound(candidates, round + [a]) && (more ==> RoundOpen(candidates, round + [a]))
  {
    var (a, more) := Settled(p, result);
    var begun := round + [Begin(p)];
    if result.Ended? {
      FailureContinuesExactly(result.workBegan, result.rejection);
    }
    SettleKeeps(candidates, begun, a.outcome, a.category, a.resetAt);
    assert begun[|begun| - 1 := a] == round + [a];
  }

  lemma LaunchIsTyped(round: seq<Attempt>, p: Preset, result: LaunchResult)
    ensures TypedRound(round) && Typed(result) ==> TypedRound(round + [Settled(p, result).0])
  {
    if result.Ended? && Typed(result) {
      FailureContinuesExactly(result.workBegan, result.rejection);
    }
  }

  lemma SkipsAreTyped(candidates: seq<Preset>, round: seq<Attempt>, scheduled: bool, ignore: bool, health: SetupHealth, now: int)
    ensures TypedRound(round) ==> TypedRound(round + Advanced(candidates, round, scheduled, ignore, health, now).choice.skipped)
  {
    SkipsAreSkipped(candidates, round, Record(ignore, health), now);
    SkipsAreSkipped(candidates, round, map[], now);
  }

  lemma TypedAsBefore(world: World, k: nat, before: seq<Attempt>, round: seq<Attempt>)
    requires TypedAs(world, before) && (TypedRound(before) && Typed(world.launch(k)) ==> TypedRound(round))
    ensures TypedAs(world, round)
  {
  }

  lemma {:induction false} SkipsAreSkipped(candidates: seq<Preset>, round: seq<Attempt>, health: SetupHealth, now: int)
    ensures forall a :: a in Next(candidates, round, health, now).skipped ==> a.outcome.Skipped?
  {
    if candidates != [] {
      SkipsAreSkipped(candidates[1..], round, health, now);
    }
  }

  /** What holds between two launches: the round so far, the setup to launch next, and why there is none. */
  ghost predicate InRound(candidates: seq<Preset>, round: seq<Attempt>, next: Option<Preset>, last: Option<LaunchResult>,
      denied: bool) {
    if next.Some? then !denied && AfterAdvance(candidates, round, next)
    else RoundSound(candidates, round) && EndsForAReason(candidates, round, last, denied)
  }

  lemma LaunchKeeps(candidates: seq<Preset>, round: seq<Attempt>, p: Preset, result: LaunchResult)
    requires InRound(candidates, round, Some(p), None, false) && FromObserver(result)
    ensures |round| < |candidates|
    ensures var (a, more) := Settled(p, result);
            if more then RoundOpen(candidates, round + [a]) else InRound(candidates, round + [a], None, Some(result), false)
  {
    RoundIsBounded(candidates, round + [Begin(p)]);
    SettledKeeps(candidates, round, p, result);
  }

  lemma StepKeeps(candidates: seq<Preset>, round: seq<Attempt>, last: Option<LaunchResult>, scheduled: bool,
      ignore: bool, health: SetupHealth, now: int)
    requires Distinct(candidates) && RoundOpen(candidates, round)
    ensures var c := Advanced(candidates, round, scheduled, ignore, health, now).choice;
            InRound(candidates, round + c.skipped, c.preset, last, false)
    ensures InRound(candidates, round, None, last, true)
  {
    AdvancedKeeps(candidates, round, scheduled, ignore, health, now);
  }

  /** One turn of the loop: the launch, and the next choice when the round goes on. */
  lemma TurnKeeps(candidates: seq<Preset>, round: seq<Attempt>, p: Preset, result: LaunchResult, scheduled: bool,
      ignore: bool, health: SetupHealth, now: int)
    requires Distinct(candidates) && InRound(candidates, round, Some(p), None, false) && FromObserver(result)
    ensures |round| < |candidates|
    ensures var (a, more) := Settled(p, result);
            var c := Advanced(candidates, round + [a], scheduled, ignore, health, now).choice;
            if more then InRound(candidates, round + [a] + c.skipped, c.preset, Some(result), false)
                && InRound(candidates, round + [a], None, Some(result), true)
            else InRound(candidates, round + [a], None, Some(result), false)
    ensures TypedRound(round) && Typed(result) ==>
              var a := Settled(p, result).0;
              var skipped := Advanced(candidates, round + [a], scheduled, ignore, health, now).choice.skipped;
              TypedRound(round + [a]) && TypedRound(round + [a] + skipped)
  {
    var (a, more) := Settled(p, result);
    LaunchKeeps(candidates, round, p, result);
    LaunchIsTyped(round, p, result);
    SkipsAreTyped(candidates, round + [a], scheduled, ignore, health, now);
    if more {
      StepKeeps(candidates, round + [a], Some(result), scheduled, ignore, health, now);
    }
  }

  lemma RoundEnds(candidates: seq<Preset>, round: seq<Attempt>, last: Option<LaunchResult>, denied: bool)
    requires InRound(candidates, round, None, last, denied)
    ensures RoundSound(candidates, round) && |round| <= |candidates| && EndsForAReason(candidates, round, last, denied)
  {
    RoundIsBounded(candidates, round);
  }

  class SetupRound {
    const candidates: seq<Preset>
    const scheduled: bool
    const roundStart: nat
    var attempts: seq<Attempt>
    var ignoreHealth: bool

    constructor (candidates: seq<Preset>, scheduled: bool, history: seq<Attempt>)
      requires Distinct(candidates)
      ensures this.candidates == candidates && this.scheduled == scheduled && roundStart == |history| && attempts == history
      ensures Valid() && !ignoreHealth
    {
      this.candidates, this.scheduled, roundStart := candidates, scheduled, |history|;
      attempts, ignoreHealth := history, false;
    }

    ghost predicate Valid()
      reads this
    {
      roundStart <= |attempts| && Distinct(candidates)
    }

    /** The attempts of this round; earlier rounds stay in the record for audit. */
    function Round(): seq<Attempt>
      requires roundStart <= |attempts|
      reads this
    {
      attempts[roundStart..]
    }

    function History(): seq<Attempt>
      requires roundStart <= |attempts|
      reads this
    {
      attempts[..roundStart]
    }

    /** The setup to launch next, if any; setups passed over are recorded as skipped. */
    method Advance(allowed: bool, health: SetupHealth, now: int) returns (p: Option<Preset>)
      requires Valid()
      modifies this
      ensures Valid()
      ensures History() == old(History())
      ensures !allowed ==> p.None? && Round() == old(Round()) && ignoreHealth == old(ignoreHealth)
      ensures allowed ==> var a := Advanced(candidates, old(Round()), scheduled, old(ignoreHealth), health, now);
                          && p == a.choice.preset && ignoreHealth == a.ignore
                          && Round() == old(Round()) + a.choice.skipped
    {
      if !allowed {
        return None;
      }
      var round := attempts[roundStart..];
      var next := NextSetup(candidates, round, if ignoreHealth then map[] else health, now);
      if next.preset.None? && !scheduled && round == [] && !ignoreHealth {
        ignoreHealth := true;
        next := NextSetup(candidates, round, map[], now);
      }
      attempts := attempts + next.skipped;
      assert attempts[roundStart..] == round + next.skipped;
      return next.preset;
    }

    /** Record a launch and, when it has ended, its outcome. */
    method Launch(p: Preset, result: LaunchResult) returns (more: bool)
      requires Valid()
      modifies this`attempts
      ensures Valid() && more == Settled(p, result).1
      ensures History() == old(History()) && Round() == old(Round()) + [Settled(p, result).0]
    {
      attempts := attempts + [Begin(p)];
      var last := Begin(p);
      more := false;
      match result {
      case CliMissing =>
        last, more := last.(outcome := Failed, category := Some(CliUnavailable)), true;
      case LaunchFailed =>
        last := last.(outcome := Failed, category := Some(Uncertain));
      case Ended(failed, cancelled, interrupted, workBegan, rejection) =>
        if !cancelled && failed {
          var failure := AttemptFailure(workBegan, rejection);
          last := last.(outcome := Failed, category := Some(failure.category), resetAt := failure.resetAt);
          more := failure.continues && !interrupted;
        } else {
          last := last.(outcome := if cancelled then Cancelled else Completed);
        }
      }
      assert last == Settled(p, result).0 && more == Settled(p, result).1;
      assert attempts[..|attempts| - 1] == old(attempts);
      attempts := attempts[..|attempts| - 1] + [last];
      assert attempts == old(attempts) + [last];
      assert attempts[roundStart..] == old(attempts[roundStart..]) + [last];
    }

    /** One launch and, when the round goes on, the choice of the next setup. */
    method LaunchAndAdvance(p: Preset, result: LaunchResult, allowed: bool, health: SetupHealth, now: int)
        returns (next: Option<Preset>, ghost denied: bool)
      requires Valid() && InRound(candidates, Round(), Some(p), None, false) && FromObserver(result)
      modifies this
      ensures Valid() && History() == old(History()) && |old(Round())| < |candidates| && |old(Round())| < |Round()|
      ensures InRound(candidates, Round(), next, Some(result), denied) && (denied ==> !allowed && next.None?)
      ensures TypedRound(old(Round())) && Typed(result) ==> TypedRound(Round())
      ensures LaunchedOf(Round()) == LaunchedOf(old(Round())) + [Settled(p, result).0]
      ensures var told := old(Round()) + [Settled(p, result).0];
              if Final(result) || !allowed then Round() == told && next.None? && (denied <==> !Final(result))
              else
                var choice := Advanced(candidates, told, scheduled, old(ignoreHealth), health, now).choice;
                Round() == told + choice.skipped && next == choice.preset
    {
      SettledMeans(p, result);
      LaunchedGrows(candidates, Round(), scheduled, ignoreHealth, health, now);
      LaunchedGrows(candidates, Round() + [Settled(p, result).0], scheduled, ignoreHealth, health, now);
      TurnKeeps(candidates, Round(), p, result, scheduled, ignoreHealth, health, now);
      var more := Launch(p, result);
      denied := more && !allowed;
      if !more {
        return None, denied;
      }
      next := Advance(allowed, health, now);
    }

    /** The first choice of a round. */
    method Start(allowed: bool, health: SetupHealth, now: int) returns (next: Option<Preset>)
      requires Valid() && Round() == []
      modifies this
      ensures Valid() && History() == old(History()) && TypedRound(Round()) && LaunchedOf(Round()) == []
      ensures InRound(candidates, Round(), next, None, !allowed)
    {
      StepKeeps(candidates, [], None, scheduled, ignoreHealth, health, now);
      SkipsAreTyped(candidates, [], scheduled, ignoreHealth, health, now);
      LaunchedGrows(candidates, [], scheduled, ignoreHealth, health, now);
      next := Advance(allowed, health, now);
    }

    /**
     * The whole round. Every setup is launched at most once, never into a login an earlier attempt
     * closed, and nothing follows an attempt that forbids it; the loop ends within the list. Where no
     * launch ends on an untyped rejection, every attempt that lets the round go on is a typed one.
     */
    method Run(world: World) returns (launches: nat, ghost last: Option<LaunchResult>, ghost denied: bool)
      requires Valid() && Round() == [] && AllObserved(world)
      modifies this
      ensures Valid() && History() == old(History())
      ensures RoundSound(candidates, Round()) && launches <= |Round()| <= |candidates|
      ensures EndsForAReason(candidates, Round(), last, denied)
      ensures denied ==> !world.allowed(launches)
      ensures InTheirTurn(world, Round(), launches) && last == if launches == 0 then None else Some(world.launch(launches - 1))
      ensures TypedAs(world, Round())
    {
      launches, last, denied := 0, None, !world.allowed(0);
      var next := Start(world.allowed(0), world.health(0), world.now(0));
      if next.Some? {
        launches, last, denied := Watch(world, 0, next.value, last, denied);
      }
      RoundEnds(candidates, Round(), last, denied);
      LaunchesAreFew(Round());
    }

    /** A setup is launched and watched, and behind it the next one as long as one is chosen. */
    method Watch(world: World, before: nat, p: Preset, ghost was: Option<LaunchResult>, ghost stopped: bool)
        returns (launches: nat, ghost last: Option<LaunchResult>, ghost denied: bool)
      requires Valid() && AllObserved(world) && InWorld(candidates, world, Round(), before, Some(p), was, stopped)
      modifies this
      ensures Valid() && History() == old(History())
      ensures InWorld(candidates, world, Round(), launches, None, last, denied)
      decreases |candidates| - |Round()|
    {
      var next;
      next, last, denied := Turn(world, before, p, was, stopped);
      launches := before + 1;
      if next.Some? {
        launches, last, denied := Watch(world, launches, next.value, last, denied);
      }
    }

    /** One launch and the choice behind it, at the moment that the number of launches says. */
    method Turn(world: World, launches: nat, p: Preset, ghost was: Option<LaunchResult>, ghost stopped: bool)
        returns (next: Option<Preset>, ghost last: Option<LaunchResult>, ghost denied: bool)
      requires Valid() && AllObserved(world) && InWorld(candidates, world, Round(), launches, Some(p), was, stopped)
      modifies this
      ensures Valid() && History() == old(History()) && |old(Round())| < |candidates| && |old(Round())| < |Round()|
      ensures InWorld(candidates, world, Round(), launches + 1, next, last, denied)
    {
      ghost var before := Round();
      var result := world.launch(launches);
      last := Some(result);
      next, denied := LaunchAndAdvance(p, result, world.allowed(launches + 1), world.health(launches + 1), world.now(launches + 1));
      TurnIsRecorded(world, before, Round(), p, launches);
      TypedAsBefore(world, launches, before, Round());
    }
  }
}
