/** Ordered setups: presets, login scopes, quota health, the chooser and one round of attempts. */
module Setups {
  import opened Options

  datatype Cli = Grok | Codex | CodexGui | Claude | Opencode | Pi

  datatype Preset = Preset(id: string, name: string, cli: Cli, provider: Option<string>, authProfile: Option<string>,
                           model: Option<string>, effort: Option<string>)

  /** One client and one credential home; a conversation may not have chosen its client yet. */
  predicate SameEngine(cli: Option<Cli>, authProfile: Option<string>, p: Preset) {
    cli == Some(p.cli) && authProfile == p.authProfile
  }

  predicate SameChoice(a: Preset, b: Preset) {
    a.cli == b.cli && a.authProfile == b.authProfile && a.provider == b.provider && a.model == b.model && a.effort == b.effort
  }

  /** Two setups are the same choice exactly when they differ in their identifier and name at most. */
  lemma SameChoiceExactly(a: Preset, b: Preset)
    ensures SameChoice(a, b) <==> a == b.(id := a.id, name := a.name)
  {
  }

  /** The part of a model identifier before its first slash. */
  function Vendor(model: string): string {
    if model == "" || model[0] == '/' then "" else [model[0]] + Vendor(model[1..])
  }

  function PresetProvider(p: Preset): Option<string> {
    if !p.cli.Opencode? then p.provider else if p.model.None? then None else Some(Vendor(p.model.value))
  }

  lemma {:induction false} VendorIsFirst(model: string, v: string)
    ensures Vendor(model) == v <==> '/' !in v && (v == model || v + "/" <= model)
  {
    if model != "" && model[0] != '/' && v != "" {
      VendorIsFirst(model[1..], v[1..]);
      assert v == [v[0]] + v[1..] && model == [model[0]] + model[1..];
      assert (v + "/")[1..] == v[1..] + "/";
    }
  }

  /** The provider a setup runs at: its own, but for OpenCode what its model names before the first slash. */
  lemma ProviderExactly(p: Preset, v: string)
    ensures p.cli != Opencode ==> PresetProvider(p) == p.provider
    ensures p.cli == Opencode && p.model == None ==> PresetProvider(p) == None
    ensures p.cli == Opencode && p.model.Some? ==>
              (PresetProvider(p) == Some(v) <==> '/' !in v && (v == p.model.value || v + "/" <= p.model.value))
  {
    if p.model.Some? {
      VendorIsFirst(p.model.value, v);
    }
  }

  /** The login whose quota a setup spends. */
  datatype Scope = Upstream(provider: string) | Login(cli: Cli, profile: Option<string>)

  function QuotaScope(p: Preset): Scope {
    if p.cli.Opencode? || p.cli.Pi? then
      var vendor := if p.model.Some? then Vendor(p.model.value) else "";
      if vendor == "" then Login(p.cli, None) else Upstream(vendor)
    else Login(if p.cli.CodexGui? then Codex else p.cli, p.authProfile)
  }

  /** Clients that run under the login of their model's upstream provider, when the model names one. */
  predicate Upstreamed(p: Preset) {
    (p.cli.Opencode? || p.cli.Pi?) && p.model.Some? && Vendor(p.model.value) != ""
  }

  /** The desktop client of Codex uses the login of Codex itself. */
  predicate OneClient(a: Cli, b: Cli) {
    a == b || ((a.Codex? || a.CodexGui?) && (b.Codex? || b.CodexGui?))
  }

  /** Which setups spend one quota: those of one upstream provider, or of one client and one named login. */
  lemma SharedScopeExactly(p: Preset, q: Preset)
    ensures QuotaScope(p) == QuotaScope(q) <==>
              if Upstreamed(p) || Upstreamed(q) then Upstreamed(p) && Upstreamed(q)
                  && Vendor(p.model.value) == Vendor(q.model.value)
              else OneClient(p.cli, q.cli) && (p.cli.Opencode? || p.cli.Pi? || p.authProfile == q.authProfile)
  {
  }

  // ---------------------------------------------------------------- quota health

  datatype Health = Health(lastSuccessAt: Option<int>, resetAt: Option<int>, retryAt: Option<int>,
      quotaFailures: Option<nat>, manualRetry: bool)

  const WELL := Health(None, None, None, None, false)

  type SetupHealth = map<Scope, Health>

  /** `Until` an instant, or until the owner retries by hand. */
  datatype Bound = Until(at: int) | Forever {
    predicate After(now: int) {
      Forever? || at > now
    }
  }

  function Max(a: int, b: int): int {
    if a < b then b else a
  }

  function BlockedUntil(h: Health): Bound {
    if h.manualRetry then Forever else Until(Max(h.resetAt.GetOr(0), h.retryAt.GetOr(0)))
  }

  function HealthOf(health: SetupHealth, p: Preset): Health {
    if QuotaScope(p) in health then health[QuotaScope(p)] else WELL
  }

  predicate Blocked(health: SetupHealth, p: Preset, now: int) {
    BlockedUntil(HealthOf(health, p)).After(now)
  }

  function Least(a: Bound, b: Bound): Bound {
    if a.Forever? || (b.Until? && b.at < a.at) then b else a
  }

  function EarliestBound(candidates: seq<Preset>, health: SetupHealth): Bound {
    if candidates == [] then Forever
    else Least(BlockedUntil(HealthOf(health, candidates[0])), EarliestBound(candidates[1..], health))
  }

  /** No wait when a saved login may run; otherwise the earliest end, or `Forever`. */
  function QuotaWait(candidates: seq<Preset>, health: SetupHealth, now: int): Option<Bound> {
    if candidates == [] || exists p :: p in candidates && !Blocked(health, p, now) then None
    else Some(EarliestBound(candidates, health))
  }

  lemma {:induction false} EarliestBoundIsLeast(candidates: seq<Preset>, health: SetupHealth)
    ensures var least := EarliestBound(candidates, health);
            && (least.Until? ==> exists p :: p in candidates && BlockedUntil(HealthOf(health, p)) == least)
            && (forall p :: p in candidates ==> Least(least, BlockedUntil(HealthOf(health, p))) == least)
  {
    if candidates != [] {
      EarliestBoundIsLeast(candidates[1..], health);
      assert forall p :: p in candidates <==> p == candidates[0] || p in candidates[1..];
    }
  }

  /** The wait does not depend on the order of the candidates. */
  lemma QuotaWaitIgnoresOrder(a: seq<Preset>, b: seq<Preset>, health: SetupHealth, now: int)
    requires multiset(a) == multiset(b)
    ensures QuotaWait(a, health, now) == QuotaWait(b, health, now)
  {
    SameMembers(a, b);
    EarliestBoundIsLeast(a, health);
    EarliestBoundIsLeast(b, health);
  }

  lemma SameMembers(a: seq<Preset>, b: seq<Preset>)
    requires multiset(a) == multiset(b)
    ensures (forall p :: p in a <==> p in b) && (a == [] <==> b == [])
  {
    assert forall p :: p in a <==> p in multiset(a);
    assert forall p :: p in b <==> p in multiset(b);
    assert |multiset(a)| == |a| && |multiset(b)| == |b|;
  }

  /** While the health record stands, the wait ends exactly at the instant it names, or never. */
  lemma WaitEndsAtRetry(candidates: seq<Preset>, health: SetupHealth, now: int, later: int)
    requires QuotaWait(candidates, health, now).Some?
    ensures var bound := QuotaWait(candidates, health, now).value;
            QuotaWait(candidates, health, later) == if bound.After(later) then Some(bound) else None
    ensures QuotaWait(candidates, health, now).value.After(now)
  {
    EarliestBoundIsLeast(candidates, health);
  }

  // ---------------------------------------------------------------- failed attempts

  /** `Untyped` is what a look-up gives under a name that every object of the language knows. */
  datatype Category = CliUnavailable | LoginUnavailable | Quota | CreditsRequired | ProviderRejected | AccessDenied
                    | QuotaAfterWork | CreditsAfterWork | AfterWork | Uncertain | SameQuotaScope | SameLoginScope
                    | Untyped(name: string)

  predicate QuotaCategory(c: Category) {
    c.Quota? || c.QuotaAfterWork? || c.CreditsRequired? || c.CreditsAfterWork? || c.SameQuotaScope?
  }

  /** Six rejections a startup can end in. */
  predicate StartupCategory(c: Category) {
    c.CliUnavailable? || c.LoginUnavailable? || c.Quota? || c.CreditsRequired? || c.ProviderRejected? || c.AccessDenied?
  }

  datatype Rejection = Rejection(category: Category, resetAt: Option<int>)

  datatype Failure = Failure(category: Category, resetAt: Option<int>, continues: bool)

  function AttemptFailure(workBegan: bool, rejection: Option<Rejection>): Failure {
    if !workBegan then
      if rejection.Some? then Failure(rejection.value.category, rejection.value.resetAt, !rejection.value.category.AccessDenied?)
      else Failure(Uncertain, None, false)
    else if rejection.Some? && rejection.value.category.Quota? then Failure(QuotaAfterWork, rejection.value.resetAt, true)
    else if rejection.Some? && rejection.value.category.CreditsRequired?
      then Failure(CreditsAfterWork, rejection.value.resetAt, true)
    else Failure(AfterWork, None, false)
  }

  /** Typed categories after which another setup may be tried. */
  predicate MayContinue(c: Category) {
    c.CliUnavailable? || c.LoginUnavailable? || c.Quota? || c.CreditsRequired? || c.ProviderRejected?
        || c.QuotaAfterWork? || c.CreditsAfterWork?
  }

  /** What an observer can report: one of the six, or an untyped rejection. */
  predicate Reportable(r: Option<Rejection>) {
    r.Some? ==> StartupCategory(r.value.category) || r.value.category.Untyped?
  }

  /**
   * A failure continues exactly on these categories, and on an untyped rejection before work began;
   * once work began, exactly on a usage limit.
   */
  lemma FailureContinuesExactly(workBegan: bool, rejection: Option<Rejection>)
    requires Reportable(rejection)
    ensures var f := AttemptFailure(workBegan, rejection);
            && (f.continues <==> MayContinue(f.category) || f.category.Untyped?)
            && (workBegan && f.continues ==> QuotaCategory(f.category))
            && (QuotaCategory(f.category) <==> rejection.Some? && QuotaCategory(rejection.value.category))
            && f.resetAt == (if rejection.Some? && (!workBegan || f.continues) then rejection.value.resetAt else None)
            && (f.category.Uncertain? <==> !workBegan && rejection.None?)
            && (!workBegan && rejection.Some? ==> f.category == rejection.value.category)
            && (f.category.Untyped? <==> !workBegan && rejection.Some? && rejection.value.category.Untyped?)
            && (f.category.QuotaAfterWork? <==> workBegan && rejection.Some? && rejection.value.category.Quota?)
            && (f.category.CreditsAfterWork? <==> workBegan && rejection.Some? && rejection.value.category.CreditsRequired?)
  {
  }

  // ---------------------------------------------------------------- the candidates of a run

  predicate SameModel(primary: Preset, p: Preset) {
    p.cli == primary.cli && p.provider == primary.provider && p.model == primary.model && p.effort == primary.effort
  }

  lemma SameModelExactly(primary: Preset, p: Preset)
    ensures SameModel(primary, p) <==> p == primary.(id := p.id, name := p.name, authProfile := p.authProfile)
  {
  }

  /** The leading setups that differ from the primary in their login only. */
  ghost predicate LeadingGroup(saved: seq<Preset>, end: nat) {
    && 0 < end <= |saved| && (forall i :: 0 <= i < end ==> SameModel(saved[0], saved[i]))
    && (end < |saved| ==> !SameModel(saved[0], saved[end]))
  }

  predicate Ready(health: SetupHealth, p: Preset, now: int) {
    !Blocked(health, p, now) && HealthOf(health, p).lastSuccessAt.Some?
  }

  /** The first of the unblocked logins with the latest success; the primary when there is none. */
  ghost predicate LatestSuccess(group: seq<Preset>, health: SetupHealth, now: int, best: nat) {
    && best < |group|
    && (forall i :: 0 <= i < |group| && Ready(health, group[i], now) ==>
          && Ready(health, group[best], now)
          && HealthOf(health, group[i]).lastSuccessAt.value <= HealthOf(health, group[best]).lastSuccessAt.value
          && (i < best ==> HealthOf(health, group[i]).lastSuccessAt.value < HealthOf(health, group[best]).lastSuccessAt.value))
    && ((forall i :: 0 <= i < |group| ==> !Ready(health, group[i], now)) ==> best == 0)
  }

  method LeadingGroupEnd(saved: seq<Preset>) returns (end: nat)
    requires saved != []
    ensures LeadingGroup(saved, end)
  {
    end := 1;
    while end < |saved| && SameModel(saved[0], saved[end])
      invariant 1 <= end <= |saved|
      invariant forall i :: 0 <= i < end ==> SameModel(saved[0], saved[i])
    {
      end := end + 1;
    }
  }

  method BestLogin(group: seq<Preset>, health: SetupHealth, now: int) returns (best: nat)
    requires group != []
    ensures LatestSuccess(group, health, now, best)
  {
    best := 0;
    var latest: Option<int> := None;
    for i := 0 to |group|
      invariant best < |group|
      invariant latest.None? ==> best == 0 && forall j :: 0 <= j < i ==> !Ready(health, group[j], now)
      invariant latest.Some? ==>
                  best < i && Ready(health, group[best], now) && HealthOf(health, group[best]).lastSuccessAt == latest
      invariant latest.Some? ==> forall j :: 0 <= j < i && Ready(health, group[j], now) ==>
                  HealthOf(health, group[j]).lastSuccessAt.value <= latest.value
                      && (j < best ==> HealthOf(health, group[j]).lastSuccessAt.value < latest.value)
    {
      var state := HealthOf(health, group[i]);
      if !BlockedUntil(state).After(now) && state.lastSuccessAt.Some?
          && (latest.None? || state.lastSuccessAt.value > latest.value) {
        best, latest := i, state.lastSuccessAt;
      }
    }
  }

  function Rotated(saved: seq<Preset>, best: nat, end: nat): seq<Preset>
    requires best <= end <= |saved|
  {
    saved[best..end] + saved[..best] + saved[end..]
  }

  lemma RotatedIsPermutation(saved: seq<Preset>, best: nat, end: nat)
    requires best <= end <= |saved|
    ensures multiset(Rotated(saved, best, end)) == multiset(saved)
  {
    assert saved == saved[..best] + saved[best..end] + saved[end..];
  }

  /** Only the leading group turns, so that its most recently successful login goes first. */
  method SetupCandidates(primary: Preset, fallbacks: seq<Preset>, health: SetupHealth, now: int)
      returns (r: seq<Preset>, ghost best: nat, ghost end: nat)
    ensures LeadingGroup([primary] + fallbacks, end) && LatestSuccess(([primary] + fallbacks)[..end], health, now, best)
    ensures r == Rotated([primary] + fallbacks, best, end) && multiset(r) == multiset([primary] + fallbacks)
  {
    var saved := [primary] + fallbacks;
    var stop := LeadingGroupEnd(saved);
    var group := saved[..stop];
    var first := BestLogin(group, health, now);
    r := group[first..] + group[..first] + saved[stop..];
    best, end := first, stop;
    TurnIsRotated(saved, first, stop);
    RotatedIsPermutation(saved, first, stop);
  }

  lemma TurnIsRotated(saved: seq<Preset>, best: nat, end: nat)
    requires best <= end <= |saved|
    ensures saved[..end][best..] + saved[..end][..best] + saved[end..] == Rotated(saved, best, end)
  {
    assert saved[..end][best..] == saved[best..end] && saved[..end][..best] == saved[..best];
  }

  ghost predicate Distinct(candidates: seq<Preset>) {
    forall i, j :: 0 <= i < j < |candidates| ==> !SameChoice(candidates[i], candidates[j])
  }

  function CliName(c: Cli): string {
    match c
    case Grok => "grok"
    case Codex => "codex"
    case CodexGui => "codex-gui"
    case Claude => "claude"
    case Opencode => "opencode"
    case Pi => "pi"
  }

  /** What a setup is called where it is shown. */
  function Label(p: Preset): string {
    CliName(p.cli) + (if p.authProfile.Some? then "@" + p.authProfile.value else "")
        + (if p.provider.Some? then " (" + p.provider.value + ")" else "")
    + " · " + p.model.GetOr("client default") + " · " + p.effort.GetOr("default effort")
  }

  const MOST_NAME := 80

  /**
   * A chain entry for the primary's own client that names no settings takes the primary's. The entry
   * is shown by its label.
   */
  function Resolve(primary: Preset, entry: Preset): Preset {
    var p := if entry.cli == primary.cli && entry.provider.None? && entry.model.None? && entry.effort.None?
      then entry.(provider := primary.provider, model := primary.model, effort := primary.effort)
      else entry;
    p.(name := if |Label(p)| <= MOST_NAME then Label(p) else Label(p)[..MOST_NAME])
  }

  /** An entry keeps its client and login; a bare one of the primary's client takes the primary's settings, any other its own. */
  lemma ResolvesExactly(primary: Preset, entry: Preset)
    ensures var p := Resolve(primary, entry);
            && p.id == entry.id && p.cli == entry.cli && p.authProfile == entry.authProfile
            && |p.name| <= 80 && p.name <= Label(p) && (|p.name| < 80 ==> p.name == Label(p))
            && (if entry == Preset(entry.id, entry.name, primary.cli, None, entry.authProfile, None, None)
                then p.provider == primary.provider && p.model == primary.model && p.effort == primary.effort
                else p.provider == entry.provider && p.model == entry.model && p.effort == entry.effort)
  {
  }

  /** How setups are called, fully named and bare. */
  lemma LabelsRead(p: Preset, profile: string, provider: string, model: string, effort: string)
    ensures CliName(Grok) == "grok" && CliName(Codex) == "codex" && CliName(CodexGui) == "codex-gui"
    ensures CliName(Claude) == "claude" && CliName(Opencode) == "opencode" && CliName(Pi) == "pi"
    ensures Label(p.(provider := Some(provider), authProfile := Some(profile), model := Some(model), effort := Some(effort))) ==
              CliName(p.cli) + ("@" + profile) + (" (" + provider + ")") + " · " + model + " · " + effort
    ensures Label(p.(provider := None, authProfile := None, model := None, effort := None)) ==
              CliName(p.cli) + " · " + "client default" + " · " + "default effort"
  {
    assert CliName(p.cli) + [] + [] == CliName(p.cli);
  }

  predicate Listed(setups: seq<Preset>, p: Preset) {
    exists q :: q in setups && SameChoice(q, p)
  }

  function Resolved(primary: Preset, chain: seq<Preset>): seq<Preset> {
    if chain == [] then []
    else
      var before, p := Resolved(primary, chain[..|chain| - 1]), Resolve(primary, chain[|chain| - 1]);
      if Listed([primary] + before, p) then before else before + [p]
  }

  /** The fallbacks of one captured choice. */
  method ResolveFallbacks(primary: Preset, chain: seq<Preset>) returns (fallbacks: seq<Preset>)
    ensures fallbacks == Resolved(primary, chain)
  {
    fallbacks := [];
    for i := 0 to |chain|
      invariant fallbacks == Resolved(primary, chain[..i])
    {
      var p := Resolve(primary, chain[i]);
      assert chain[..i + 1][..i] == chain[..i];
      if !Listed([primary] + fallbacks, p) {
        fallbacks := fallbacks + [p];
      }
    }
    assert chain[..|chain|] == chain;
  }

  /** Every resolved entry is there once, and none of them is the primary again. */
  lemma {:induction false} ResolvedIsDistinct(primary: Preset, chain: seq<Preset>)
    ensures Distinct([primary] + Resolved(primary, chain))
    ensures forall p :: p in Resolved(primary, chain) ==> exists e :: e in chain && p == Resolve(primary, e)
    ensures forall e :: e in chain ==> Listed([primary] + Resolved(primary, chain), Resolve(primary, e))
  {
    if chain != [] {
      var init, last := chain[..|chain| - 1], chain[|chain| - 1];
      ResolvedIsDistinct(primary, init);
      assert forall e :: e in chain <==> e in init || e == last;
      var before, p := Resolved(primary, init), Resolve(primary, last);
      if !Listed([primary] + before, p) {
        AddDistinct([primary] + before, p);
        assert [primary] + (before + [p]) == [primary] + before + [p];
      }
    }
  }

  lemma AddDistinct(setups: seq<Preset>, p: Preset)
    requires Distinct(setups) && !Listed(setups, p)
    ensures Distinct(setups + [p])
    ensures Listed(setups + [p], p)
    ensures forall q :: Listed(setups, q) ==> Listed(setups + [p], q)
  {
    assert p in setups + [p] && SameChoice(p, p);
    forall q | Listed(setups, q) ensures Listed(setups + [p], q) {
      var s :| s in setups && SameChoice(s, q);
      assert s in setups + [p];
    }
  }

  /** Turning the leading group keeps the setups distinct. */
  lemma RotatedIsDistinct(saved: seq<Preset>, best: nat, end: nat)
    requires best <= end <= |saved| && Distinct(saved)
    ensures Distinct(Rotated(saved, best, end))
  {
    var turned := Rotated(saved, best, end);
    forall i, j | 0 <= i < j < |turned| ensures !SameChoice(turned[i], turned[j]) {
      var a, b := Origin(best, end, i), Origin(best, end, j);
      assert turned[i] == saved[a] && turned[j] == saved[b] && a != b;
    }
  }

  /** Where the setup at `i` after the turn stood before it. */
  function Origin(best: nat, end: nat, i: nat): nat
    requires best <= end
  {
    if i < end - best then best + i else if i < end then i - (end - best) else i
  }

  // ---------------------------------------------------------------- the next setup

  datatype Outcome = Pending | Completed | Failed | Cancelled | Skipped

  datatype Attempt = Attempt(preset: Preset, scope: Scope, outcome: Outcome, category: Option<Category>, resetAt: Option<int>)

  /** A login rejection or a quota limit, which closes the attempt's scope for the round. */
  predicate Exhausting(a: Attempt) {
    a.category.Some? && (QuotaCategory(a.category.value) || a.category.value.LoginUnavailable?)
  }

  predicate Tried(attempts: seq<Attempt>, p: Preset) {
    exists a :: a in attempts && SameChoice(a.preset, p)
  }

  /** Why a scope is closed, by the latest attempt that closed it. */
  function Exhausted(attempts: seq<Attempt>, scope: Scope): Option<Category> {
    if attempts == [] then None
    else
      var last := attempts[|attempts| - 1];
      if Exhausting(last) && last.scope == scope
          then Some(if last.category.value.LoginUnavailable? then SameLoginScope else SameQuotaScope)
      else Exhausted(attempts[..|attempts| - 1], scope)
  }

  function Obstacle(attempts: seq<Attempt>, health: SetupHealth, now: int, p: Preset): Option<Category> {
    var closed := Exhausted(attempts, QuotaScope(p));
    if closed.Some? then closed else if Blocked(health, p, now) then Some(SameQuotaScope) else None
  }

  function SkippedAttempt(health: SetupHealth, p: Preset, why: Category): Attempt {
    Attempt(p, QuotaScope(p), Skipped, Some(why), HealthOf(health, p).resetAt)
  }

  datatype Choice = Choice(skipped: seq<Attempt>, preset: Option<Preset>)

  /** Untried candidates in order: obstructed ones are recorded as skipped, the first free one is chosen. */
  function Next(candidates: seq<Preset>, attempts: seq<Attempt>, health: SetupHealth, now: int): Choice {
    if candidates == [] then Choice([], None)
    else if Tried(attempts, candidates[0]) then Next(candidates[1..], attempts, health, now)
    else
      var why := Obstacle(attempts, health, now, candidates[0]);
      if why.None? then Choice([], Some(candidates[0]))
      else
        var rest := Next(candidates[1..], attempts, health, now);
        Choice([SkippedAttempt(health, candidates[0], why.value)] + rest.skipped, rest.preset)
  }

  method NextSetup(candidates: seq<Preset>, attempts: seq<Attempt>, health: SetupHealth, now: int) returns (r: Choice)
    ensures r == Next(candidates, attempts, health, now)
  {
    var skipped: seq<Attempt> := [];
    for i := 0 to |candidates|
      invariant Next(candidates, attempts, health, now) ==
                var rest := Next(candidates[i..], attempts, health, now); Choice(skipped + rest.skipped, rest.preset)
    {
      var p := candidates[i];
      assert candidates[i..][0] == p && candidates[i..][1..] == candidates[i + 1..];
      if !Tried(attempts, p) {
        var why := Obstacle(attempts, health, now, p);
        if why.None? {
          return Choice(skipped, Some(p));
        }
        assert forall rest: seq<Attempt> ::
            skipped + ([SkippedAttempt(health, p, why.value)] + rest) == skipped + [SkippedAttempt(health, p, why.value)] + rest;
        skipped := skipped + [SkippedAttempt(health, p, why.value)];
      }
    }
    return Choice(skipped, None);
  }

  /** Before the first attempt, a setup is offered exactly when there is no quota wait. */
  lemma {:induction false} GateAgrees(candidates: seq<Preset>, health: SetupHealth, now: int)
    requires candidates != []
    ensures QuotaWait(candidates, health, now).None? <==> Next(candidates, [], health, now).preset.Some?
  {
    var p := candidates[0];
    assert forall q :: q in candidates <==> q == p || q in candidates[1..];
    if Blocked(health, p, now) && candidates[1..] != [] {
      GateAgrees(candidates[1..], health, now);
    } else if Blocked(health, p, now) {
      assert Next(candidates[1..], [], health, now).preset.None?;
    }
  }

  /** What closes a scope: a limit, a demand for credits, a skip for its quota, or a rejected login. */
  predicate Closes(a: Attempt, scope: Scope) {
    && a.scope == scope
    && (|| a.category == Some(Quota) || a.category == Some(QuotaAfterWork) || a.category == Some(CreditsRequired)
        || a.category == Some(CreditsAfterWork) || a.category == Some(SameQuotaScope) || a.category == Some(LoginUnavailable))
  }

  /** A scope is closed by the last attempt in it that closes it. */
  lemma {:induction false} ExhaustedExactly(attempts: seq<Attempt>, scope: Scope)
    ensures Exhausted(attempts, scope).None? <==> forall a :: a in attempts ==> !Closes(a, scope)
    ensures forall k :: 0 <= k < |attempts| && Closes(attempts[k], scope) ==>
              || (exists j :: k < j < |attempts| && Closes(attempts[j], scope))
              || Exhausted(attempts, scope) ==
                 Some(if attempts[k].category == Some(LoginUnavailable) then SameLoginScope else SameQuotaScope)
  {
    if attempts != [] {
      var init, last := attempts[..|attempts| - 1], attempts[|attempts| - 1];
      ExhaustedExactly(init, scope);
      assert forall a :: a in attempts <==> a in init || a == last;
      assert Closes(last, scope) <==> Exhausting(last) && last.scope == scope;
    }
  }

  /** No two attempts are for the same setup. */
  ghost predicate OncePer(attempts: seq<Attempt>) {
    forall i, j :: 0 <= i < j < |attempts| ==> !SameChoice(attempts[i].preset, attempts[j].preset)
  }

  /** A recorded skip: an untried candidate, with the obstacle that stood in its way. */
  predicate SkipOf(candidates: seq<Preset>, attempts: seq<Attempt>, health: SetupHealth, now: int, a: Attempt) {
    && a.preset in candidates && !Tried(attempts, a.preset) && a.scope == QuotaScope(a.preset) && a.outcome.Skipped?
    && a.category.Some? && a.category == Obstacle(attempts, health, now, a.preset)
  }

  /** What the chooser returned is about setups of `candidates` not tried before. */
  ghost predicate Untouched(candidates: seq<Preset>, attempts: seq<Attempt>, health: SetupHealth, now: int, c: Choice) {
    && OncePer(c.skipped) && (forall a :: a in c.skipped ==> SkipOf(candidates, attempts, health, now, a))
    && (c.preset.Some? ==>
          && c.preset.value in candidates && !Tried(attempts, c.preset.value)
             && Obstacle(attempts, health, now, c.preset.value).None?
          && forall a :: a in c.skipped ==> !SameChoice(a.preset, c.preset.value))
  }

  lemma {:induction false} NextIsFresh(candidates: seq<Preset>, attempts: seq<Attempt>, health: SetupHealth, now: int)
    requires Distinct(candidates)
    ensures Untouched(candidates, attempts, health, now, Next(candidates, attempts, health, now))
  {
    if candidates != [] {
      var p, rest := candidates[0], Next(candidates[1..], attempts, health, now);
      assert Distinct(candidates[1..]) by {
        forall i, j | 0 <= i < j < |candidates[1..]| ensures !SameChoice(candidates[1..][i], candidates[1..][j]) {
          assert candidates[1..][i] == candidates[i + 1] && candidates[1..][j] == candidates[j + 1];
        }
      }
      NextIsFresh(candidates[1..], attempts, health, now);
      LaterDiffers(candidates);
      forall a | a in rest.skipped ensures SkipOf(candidates, attempts, health, now, a) && !SameChoice(p, a.preset) {
        assert SkipOf(candidates[1..], attempts, health, now, a);
      }
      var why := Obstacle(attempts, health, now, p);
      if !Tried(attempts, p) && why.Some? {
        PrependOnce(SkippedAttempt(health, p, why.value), rest.skipped);
      }
    }
  }

  lemma PrependOnce(a: Attempt, rest: seq<Attempt>)
    requires OncePer(rest) && forall b :: b in rest ==> !SameChoice(a.preset, b.preset)
    ensures OncePer([a] + rest)
  {
    forall i, j | 0 <= i < j < |rest| + 1 ensures !SameChoice(([a] + rest)[i].preset, ([a] + rest)[j].preset) {
      assert ([a] + rest)[j] == rest[j - 1];
    }
  }

  /** The setup chosen is the first one that is neither tried nor obstructed; none is chosen when there is none. */
  lemma {:induction false} NextIsFirst(candidates: seq<Preset>, attempts: seq<Attempt>, health: SetupHealth, now: int)
      returns (k: nat)
    ensures k <= |candidates|
    ensures forall i :: 0 <= i < k ==> Tried(attempts, candidates[i]) || Obstacle(attempts, health, now, candidates[i]).Some?
    ensures var chosen := Next(candidates, attempts, health, now).preset;
            if k < |candidates| then chosen == Some(candidates[k]) else chosen.None?
    ensures k < |candidates| ==> !Tried(attempts, candidates[k]) && Obstacle(attempts, health, now, candidates[k]).None?
  {
    k := 0;
    if candidates != [] && (Tried(attempts, candidates[0]) || Obstacle(attempts, health, now, candidates[0]).Some?) {
      var later := NextIsFirst(candidates[1..], attempts, health, now);
      k := later + 1;
      assert forall i :: 0 < i < k ==> candidates[i] == candidates[1..][i - 1];
    }
  }

  lemma LaterDiffers(candidates: seq<Preset>)
    requires candidates != [] && Distinct(candidates)
    ensures forall p :: p in candidates[1..] ==> p in candidates && !SameChoice(candidates[0], p)
  {
    forall p | p in candidates[1..] ensures p in candidates && !SameChoice(candidates[0], p) {
      var k :| 0 <= k < |candidates| - 1 && candidates[1..][k] == p;
      assert candidates[k + 1] == p;
    }
  }
}
