/** What the outcome of an attempt leaves in the quota record of its login. */
module QuotaHealth {
  import opened Options
  import opened Setups

  const MINUTE := 60_000
  const BACKOFF: seq<int> := [5, 15, 30, 60]

  predicate ValidHealth(h: Health) {
    h.quotaFailures.Some? ==> h.quotaFailures.value <= 4
  }

  predicate ValidRecord(health: SetupHealth) {
    forall scope :: scope in health ==> ValidHealth(health[scope])
  }

  predicate Recordable(a: Attempt) {
    a.outcome.Completed? || (a.category.Some? && (QuotaCategory(a.category.value) || a.category.value.LoginUnavailable?))
  }

  predicate Credits(c: Category) {
    c.CreditsRequired? || c.CreditsAfterWork?
  }

  /** One record after one recordable outcome. */
  function Recorded(h: Health, a: Attempt, now: int): Health
    requires Recordable(a) && ValidHealth(h)
  {
    var blocked := BlockedUntil(h).After(now);
    if a.outcome.Completed? then
      var succeeded := h.(lastSuccessAt := Some(now));
      if blocked then succeeded else succeeded.(resetAt := None, retryAt := None, quotaFailures := None)
    else
      var failed := h.(lastSuccessAt := None);
      if a.category.value.LoginUnavailable? then failed
      else if Credits(a.category.value) then failed.(manualRetry := true)
      else if a.resetAt.Some? && a.resetAt.value > now then
        if a.resetAt.value > h.resetAt.GetOr(0) then failed.(resetAt := a.resetAt) else failed
      else if blocked then failed
      else if a.resetAt.Some? && h.quotaFailures.None? then failed.(quotaFailures := Some(0), retryAt := Some(now + 1000))
      else
        var failures := if h.quotaFailures.GetOr(0) + 1 < 4 then h.quotaFailures.GetOr(0) + 1 else 4;
        failed.(quotaFailures := Some(failures), retryAt := Some(now + BACKOFF[failures - 1] * MINUTE))
  }

  /** No outcome shortens a wait that is still running. */
  predicate NoShorter(before: Bound, after: Bound) {
    after.Forever? || (before.Until? && before.at <= after.at)
  }

  /** A limit blocks the login past the present, a running wait is never shortened, and the count stays in range. */
  lemma OutcomeKeepsTheWait(h: Health, a: Attempt, now: int)
    requires Recordable(a) && ValidHealth(h) && now >= 0
    ensures var r := Recorded(h, a, now);
            && ValidHealth(r)
            && (!a.outcome.Completed? && QuotaCategory(a.category.value) ==> BlockedUntil(r).After(now))
            && (BlockedUntil(h).After(now) ==> NoShorter(BlockedUntil(h), BlockedUntil(r)))
            && (r.lastSuccessAt.Some? <==> a.outcome.Completed?)
            && (a.outcome.Completed? ==> BlockedUntil(r) == if BlockedUntil(h).After(now) then BlockedUntil(h) else Until(0))
            && (!a.outcome.Completed? && a.category.value.LoginUnavailable? ==> BlockedUntil(r) == BlockedUntil(h))
  {
  }

  function Later(a: Bound, at: int): Bound {
    if a.Until? && a.at < at then Until(at) else a
  }

  /**
   * How long a login is left alone after each kind of failure: for credits, until the owner acts; for a
   * limit with a reset to come, until the later of that and the wait at hand; for any other limit, as
   * long as a running wait says, else a second, or five, fifteen, thirty or sixty minutes from now.
   */
  lemma WaitExactly(h: Health, a: Attempt, now: int)
    requires Recordable(a) && ValidHealth(h) && !a.outcome.Completed? && now >= 0
    ensures var before, after, c := BlockedUntil(h), BlockedUntil(Recorded(h, a, now)), a.category.value;
            && (c == LoginUnavailable ==> after == before)
            && (c == CreditsRequired || c == CreditsAfterWork ==> after == Forever)
            && (c in {Quota, QuotaAfterWork, SameQuotaScope} ==>
                  after == if a.resetAt.Some? && a.resetAt.value > now then Later(before, a.resetAt.value)
                           else if before.After(now) then before
                           else if a.resetAt.Some? && h.quotaFailures.None? then Until(now + 1000)
                           else Until(now + 60000 * match h.quotaFailures.GetOr(0) case 0 => 5 case 1 => 15 case 2 => 30 case _ => 60))
  {
  }

  /** A limit met while no wait was running, with no reset still to come. */
  predicate AsksAgain(h: Health, a: Attempt, now: int) {
    && !BlockedUntil(h).After(now) && a.category.Some? && QuotaCategory(a.category.value) && !Credits(a.category.value)
    && !(a.resetAt.Some? && a.resetAt.value > now)
  }

  /**
   * Only such a limit sets a new time to ask again, past the present. It counts as another failure, up
   * to four, unless it is the first of its kind and names a reset that has passed: that one counts as none.
   */
  lemma CountsExactly(h: Health, a: Attempt, now: int)
    requires Recordable(a) && ValidHealth(h) && !a.outcome.Completed? && now >= 0
    ensures var r := Recorded(h, a, now);
            && (r.retryAt != h.retryAt ==> AsksAgain(h, a, now))
            && (AsksAgain(h, a, now) ==> r.retryAt.Some? && r.retryAt.value > now && r.quotaFailures.Some?)
            && (r.quotaFailures.GetOr(0) == h.quotaFailures.GetOr(0) + 1
                <==> AsksAgain(h, a, now) && h.quotaFailures.GetOr(0) < 4 && !(a.resetAt.Some? && h.quotaFailures.None?))
            && (r.quotaFailures == Some(0) && h.quotaFailures != Some(0)
                <==> AsksAgain(h, a, now) && a.resetAt.Some? && h.quotaFailures.None?)
            && (r.quotaFailures.GetOr(0) in [h.quotaFailures.GetOr(0), h.quotaFailures.GetOr(0) + 1])
  {
  }

  /** A limit reported without a reset time, met each time right after the previous wait ended. */
  ghost predicate Backoff(a: Attempt, states: seq<Health>, times: seq<int>) {
    && Recordable(a) && !a.outcome.Completed? && QuotaCategory(a.category.value) && !Credits(a.category.value) && a.resetAt.None?
    && |states| == |times| + 1 && states[0] == WELL
    && forall i :: 0 <= i < |times| ==>
         && times[i] >= 0 && ValidHealth(states[i]) && !BlockedUntil(states[i]).After(times[i])
         && states[i + 1] == Recorded(states[i], a, times[i])
  }

  function Delay(n: nat): int {
    if n < 4 then BACKOFF[n] * MINUTE else BACKOFF[3] * MINUTE
  }

  /** Waits grow five, fifteen, thirty, sixty minutes, and stay at sixty. */
  lemma {:induction false} BackoffGrows(a: Attempt, states: seq<Health>, times: seq<int>, n: nat)
    requires Backoff(a, states, times) && n < |times|
    ensures states[n + 1].retryAt == Some(times[n] + Delay(n)) && states[n + 1].quotaFailures == Some(if n < 4 then n + 1 else 4)
  {
    if n > 0 {
      BackoffGrows(a, states, times, n - 1);
    }
  }

  /** The whole record after one outcome. */
  function Noted(health: SetupHealth, a: Attempt, now: int): SetupHealth
    requires Recordable(a) && ValidRecord(health)
  {
    var r := Recorded(HealthOf(health, a.preset), a, now);
    if r == WELL then health - {QuotaScope(a.preset)} else health[QuotaScope(a.preset) := r]
  }

  /**
   * After a limit, the chooser of the next occurrence skips every setup of that login scope, and
   * setups of other logins are judged as before.
   */
  lemma LimitClosesTheScope(health: SetupHealth, a: Attempt, now: int, p: Preset)
    requires Recordable(a) && ValidRecord(health) && now >= 0
    ensures var noted := Noted(health, a, now);
            && ValidRecord(noted)
            && (QuotaScope(p) != QuotaScope(a.preset) ==> HealthOf(noted, p) == HealthOf(health, p))
            && (QuotaScope(p) == QuotaScope(a.preset) && !a.outcome.Completed? && QuotaCategory(a.category.value) ==>
                  Obstacle([], noted, now, p) == Some(SameQuotaScope))
  {
    OutcomeKeepsTheWait(HealthOf(health, a.preset), a, now);
    var noted := Noted(health, a, now);
    forall scope | scope in noted ensures ValidHealth(noted[scope]) {
      assert scope != QuotaScope(a.preset) ==> scope in health;
    }
  }
}
