/**
 * The startup observer reads a client's structured output line by line and keeps three facts: did
 * work begin, which rejection does the run stand at, and how did the native client end. A host may
 * read the raw stream and forward summaries instead; a relay reading those must learn the same.
 */
module StartupStream {
  import opened Options
  import opened Setups
  import AttemptRound
  import QuotaHealth

  // ---------------------------------------------------------------- native results

  /** One field of a parsed event: left out, null, a boolean, a string or anything else. */
  datatype Field = Missing | Null | Flag(value: bool) | Text(text: string) | Strange

  const RESULT_SUBTYPES: seq<string> :=
    ["success", "error_during_execution", "error_max_turns", "error_max_budget_usd", "error_max_structured_output_retries"]
  const STOP_REASONS: seq<string> :=
    ["end_turn", "stop_sequence", "max_tokens", "tool_use", "pause_turn", "refusal", "model_context_window_exceeded"]

  datatype Status = Completed | Failed | Incomplete

  datatype NativeTerminal = NativeTerminal(status: Status, subtype: string, isError: Option<bool>, stopReason: Field)

  datatype RawTerminal = RawTerminal(subtype: Field, isError: Field, stopReason: Field)

  predicate Ends(stopReason: Field) {
    stopReason.Missing? || stopReason.Null? || (stopReason.Text? && stopReason.text in ["end_turn", "stop_sequence"])
  }

  /** Closed values only: an unknown subtype or stop reason is named as unknown. */
  function Terminal(raw: RawTerminal): NativeTerminal {
    var subtype := if raw.subtype.Text? && raw.subtype.text in RESULT_SUBTYPES then raw.subtype.text else "unknown";
    var isError := if raw.isError.Flag? then Some(raw.isError.value) else None;
    var stopReason := if raw.stopReason.Missing? || raw.stopReason.Null? then raw.stopReason
                      else if raw.stopReason.Text? && raw.stopReason.text in STOP_REASONS then raw.stopReason
                      else Text("unknown");
    var status := if isError == Some(true) || "error_" <= subtype then Status.Failed
                  else if subtype == "success" && isError == Some(false) && Ends(stopReason) then Status.Completed
                  else Status.Incomplete;
    NativeTerminal(status, subtype, isError, stopReason)
  }

  /** A stored terminal as it stands in a summary. */
  function Raw(t: NativeTerminal): RawTerminal {
    RawTerminal(Text(t.subtype), if t.isError.Some? then Flag(t.isError.value) else Missing, t.stopReason)
  }

  /** Which results count as failed, and which as completed; everything else is incomplete. */
  lemma StatusExactly(raw: RawTerminal)
    ensures Terminal(raw).status.Failed? <==>
              || raw.isError == Flag(true)
              || raw.subtype in {Text("error_during_execution"), Text("error_max_turns"), Text("error_max_budget_usd"),
                                 Text("error_max_structured_output_retries")}
    ensures Terminal(raw).status.Completed? <==>
              && raw.subtype == Text("success") && raw.isError == Flag(false)
              && raw.stopReason in {Missing, Null, Text("end_turn"), Text("stop_sequence")}
  {
    SubtypesExactly(Terminal(raw).subtype);
    StopsExactly(raw);
  }

  lemma SubtypesExactly(subtype: string)
    requires subtype in RESULT_SUBTYPES || subtype == "unknown"
    ensures "error_" <= subtype <==> subtype != "success" && subtype != "unknown"
  {
    assert "error_during_execution"[..6] == "error_" && "error_max_turns"[..6] == "error_";
    assert "error_max_budget_usd"[..6] == "error_" && "error_max_structured_output_retries"[..6] == "error_";
    assert "success"[0] != "error_"[0] && "unknown"[0] != "error_"[0];
  }

  lemma StopsExactly(raw: RawTerminal)
    ensures Ends(Terminal(raw).stopReason) <==> raw.stopReason in {Missing, Null, Text("end_turn"), Text("stop_sequence")}
  {
    assert "unknown"[0] != "end_turn"[0] && "unknown"[0] != "stop_sequence"[0];
  }

  /** Reading back a terminal that was read once changes nothing. */
  lemma TerminalIsStable(raw: RawTerminal)
    ensures Terminal(Raw(Terminal(raw))) == Terminal(raw)
  {
  }

  // ---------------------------------------------------------------- events

  datatype RawReset = NoReset | ResetAt(at: int) | BadReset

  /** A summary's rejection: none, or a category (`None` when it is not one of the six) with its reset time. */
  datatype RawRejection = NoRejection | RawRejection(category: Option<Category>, resetAt: RawReset)

  datatype Event = EzStartup(workBegan: bool, rejection: RawRejection, terminal: Option<RawTerminal>)
                 | ResultEvent(fields: RawTerminal)
                 | Metadata
                 | RateLimit(rejected: bool, credits: bool, resetsAt: Option<int>)
                 | ApiStatus(status: Option<int>)
                 | AssistantError(error: string)
                 | OtherEvent

  datatype Startup = Startup(workBegan: bool, rejection: Option<Rejection>, terminal: Option<NativeTerminal>)

  const QUIET := Startup(false, None, None)

  predicate Denied(s: Startup) {
    s.rejection.Some? && s.rejection.value.category.AccessDenied?
  }

  /** An access denial stands whatever follows. */
  function Reject(s: Startup, r: Option<Rejection>): Startup {
    if Denied(s) then s else s.(rejection := r)
  }

  function Work(s: Startup): Startup {
    Reject(s, None).(workBegan := true)
  }

  function HttpRejection(status: Option<int>): Option<Category> {
    if status.None? then None
    else if status.value == 401 then Some(LoginUnavailable)
    else if status.value == 429 then Some(Quota)
    else if status.value == 403 then Some(AccessDenied)
    else if status.value in [400, 404] || status.value >= 500 then Some(ProviderRejected)
    else None
  }

  /**
   * The category of a native error. The table is an object, so a name that is not in it but that every
   * object knows gives something that is no category.
   */
  function ClaudeError(names: set<string>, error: string): Option<Category> {
    if error == "rate_limit" then Some(Quota)
    else if error == "billing_error" then Some(CreditsRequired)
    else if error == "authentication_failed" then Some(LoginUnavailable)
    else if error in ["oauth_org_not_allowed", "account_on_hold", "verification_required", "cloud_credential_error"]
        then Some(AccessDenied)
    else if error in ["overloaded", "server_error", "model_not_found", "invalid_request"] then Some(ProviderRejected)
    else if error in names then Some(Untyped(error))
    else None
  }

  const MAX_SAFE := 9007199254740991

  function EpochSeconds(seconds: Option<int>): Option<int> {
    if seconds.Some? && 0 < seconds.value <= MAX_SAFE then Some(seconds.value * 1000) else None
  }

  predicate Reported(r: RawRejection) {
    r.RawRejection? && r.category.Some? && StartupCategory(r.category.value) && !r.resetAt.BadReset?
  }

  /** A rejection survives an error-flagged success envelope and the native client's own execution error. */
  predicate KeepsRejection(some: bool, fields: RawTerminal) {
    var t := Terminal(fields);
    || (t.subtype == "success" && t.isError == Some(true) && some && Ends(t.stopReason))
    || t.subtype == "error_during_execution"
    || (fields.subtype.Missing? && fields.isError == Flag(true))
  }

  /** `names` are those that every object of the language knows. */
  function Step(names: set<string>, s: Startup, e: Event): Startup {
    match e
    case EzStartup(workBegan, rejection, terminal) =>
      var said := if Reported(rejection)
        then Some(Rejection(rejection.category.value, if rejection.resetAt.ResetAt? then Some(rejection.resetAt.at) else None))
        else None;
      Reject(s, said).(workBegan := s.workBegan || workBegan,
                       terminal := if terminal.Some? then Some(Terminal(terminal.value)) else s.terminal)
    case ResultEvent(fields) =>
      (if KeepsRejection(s.rejection.Some?, fields) then s else Reject(s, None)).(terminal := Some(Terminal(fields)))
    case Metadata => s
    case RateLimit(rejected, credits, resetsAt) =>
      if rejected then Reject(s, Some(Rejection(if credits then CreditsRequired else Quota, EpochSeconds(resetsAt)))) else s
    case ApiStatus(status) =>
      if HttpRejection(status).Some? then Reject(s, Some(Rejection(HttpRejection(status).value, None))) else Work(s)
    case AssistantError(error) =>
      var c := ClaudeError(names, error);
      if c.None? then Work(s)
      else if c == Some(Quota) && s.rejection.Some? then
        var limit := if s.rejection.value.category.CreditsRequired? then CreditsRequired else Quota;
        Reject(s, Some(Rejection(limit, s.rejection.value.resetAt)))
      else Reject(s, Some(Rejection(c.value, None)))
    case OtherEvent => Work(s)
  }

  predicate UntypedStands(s: Startup) {
    s.rejection.Some? && s.rejection.value.category.Untyped?
  }

  /** Stored facts are typed, but for an untyped rejection, which has no reset time. */
  predicate Canonical(s: Startup) {
    && Reportable(s.rejection) && (UntypedStands(s) ==> s.rejection.value.resetAt.None?)
    && (s.terminal.Some? ==> Terminal(Raw(s.terminal.value)) == s.terminal.value)
  }

  /** What is left of a state that went through text: an untyped rejection does not. */
  function Erased(s: Startup): Startup {
    if UntypedStands(s) then s.(rejection := None) else s
  }

  /** What reading on can never undo. */
  predicate Later(s: Startup, t: Startup) {
    && (s.workBegan ==> t.workBegan)
    && (Denied(s) ==> t.rejection == s.rejection)
    && (s.terminal.Some? ==> t.terminal.Some?)
  }

  lemma ErrorsAreReportable(names: set<string>, error: string, status: Option<int>)
    ensures ClaudeError(names, error).Some? ==> Reportable(Some(Rejection(ClaudeError(names, error).value, None)))
    ensures HttpRejection(status).Some? ==> StartupCategory(HttpRejection(status).value)
  {
  }

  lemma RejectIsCanonical(s: Startup, r: Option<Rejection>)
    requires Canonical(s) && Reportable(r) && (r.Some? && r.value.category.Untyped? ==> r.value.resetAt.None?)
    ensures Canonical(Reject(s, r)) && Canonical(Reject(s, r).(workBegan := true))
  {
  }

  lemma StepIsCanonical(names: set<string>, s: Startup, e: Event)
    requires Canonical(s)
    ensures Canonical(Step(names, s, e))
  {
    match e
    case EzStartup(_, _, terminal) => if terminal.Some? { TerminalIsStable(terminal.value); }
    case ResultEvent(fields) => ResultIsCanonical(names, s, fields);
    case Metadata =>
    case RateLimit(_, credits, resetsAt) =>
      RejectIsCanonical(s, Some(Rejection(if credits then CreditsRequired else Quota, EpochSeconds(resetsAt))));
    case ApiStatus(status) => ErrorsAreReportable(names, "", status);
    case AssistantError(error) => ErrorIsCanonical(names, s, error);
    case OtherEvent => RejectIsCanonical(s, None);
  }

  lemma ResultIsCanonical(names: set<string>, s: Startup, fields: RawTerminal)
    requires Canonical(s)
    ensures Canonical(Step(names, s, ResultEvent(fields)))
  {
    TerminalIsStable(fields);
    RejectIsCanonical(s, None);
  }

  lemma ErrorIsCanonical(names: set<string>, s: Startup, error: string)
    requires Canonical(s)
    ensures Canonical(Step(names, s, AssistantError(error)))
  {
    ErrorsAreReportable(names, error, None);
    RejectIsCanonical(s, None);
  }

  lemma StepIsLater(names: set<string>, s: Startup, e: Event)
    ensures Later(s, Step(names, s, e))
  {
  }

  function Steps(names: set<string>, s: Startup, events: seq<Event>): Startup {
    if events == [] then s else Step(names, Steps(names, s, events[..|events| - 1]), events[|events| - 1])
  }

  /** A summary that reports this category, with a reset time that can be read if it has one. */
  predicate Reports(e: Event, c: Category) {
    e.EzStartup? && e.rejection.RawRejection? && e.rejection.category == Some(c) && !e.rejection.resetAt.BadReset?
  }

  /** The limits, statuses and error names that stand for each category. */
  predicate RejectsWith(e: Event, c: Category) {
    match c
    case Quota =>
      Reports(e, c) || (e.RateLimit? && e.rejected && !e.credits) || e == ApiStatus(Some(429)) || e == AssistantError("rate_limit")
    case CreditsRequired => Reports(e, c) || (e.RateLimit? && e.rejected && e.credits) || e == AssistantError("billing_error")
    case LoginUnavailable => Reports(e, c) || e == ApiStatus(Some(401)) || e == AssistantError("authentication_failed")
    case AccessDenied =>
      || Reports(e, c) || e == ApiStatus(Some(403))
      || (e.AssistantError? && e.error in {"oauth_org_not_allowed", "account_on_hold", "verification_required",
          "cloud_credential_error"})
    case ProviderRejected =>
      || Reports(e, c) || (e.ApiStatus? && e.status.Some? && (e.status.value in {400, 404} || e.status.value >= 500))
      || (e.AssistantError? && e.error in {"overloaded", "server_error", "model_not_found", "invalid_request"})
    case CliUnavailable => Reports(e, c)
    case _ => false
  }

  predicate Rejects(e: Event) {
    || RejectsWith(e, Quota) || RejectsWith(e, CreditsRequired) || RejectsWith(e, LoginUnavailable)
    || RejectsWith(e, AccessDenied) || RejectsWith(e, ProviderRejected) || RejectsWith(e, CliUnavailable)
  }

  /** Whether an event is evidence of work: a summary that says so, or anything not known to come before work. */
  predicate ShowsWork(names: set<string>, e: Event) {
    match e
    case EzStartup(workBegan, _, _) => workBegan
    case ApiStatus(_) => !Rejects(e)
    case AssistantError(error) => !Rejects(e) && error !in names
    case OtherEvent => true
    case _ => false
  }

  /** Work began exactly when some event showed it. */
  lemma {:induction false} WorkBeganExactly(names: set<string>, events: seq<Event>)
    ensures Steps(names, QUIET, events).workBegan <==> exists e :: e in events && ShowsWork(names, e)
  {
    if events != [] {
      var init, last := events[..|events| - 1], events[|events| - 1];
      WorkBeganExactly(names, init);
      StepShowsWork(names, Steps(names, QUIET, init), last);
      assert forall e :: e in events <==> e in init || e == last;
    }
  }

  lemma StepShowsWork(names: set<string>, s: Startup, e: Event)
    ensures Step(names, s, e).workBegan == (s.workBegan || ShowsWork(names, e))
  {
  }

  /** Work that comes last leaves no rejection but an access denial: the rejection is the one a run ends on. */
  lemma WorkSupersedes(names: set<string>, s: Startup, e: Event)
    requires ShowsWork(names, e) && !e.EzStartup?
    ensures Step(names, s, e).rejection == if Denied(s) then s.rejection else None
  {
  }

  // ---------------------------------------------------------------- untyped rejections

  /** An error whose name is not in the table but known to every object. */
  predicate NamesInherited(names: set<string>, e: Event) {
    e.AssistantError? && e.error in names && !Rejects(e)
  }

  predicate Denies(e: Event) {
    RejectsWith(e, AccessDenied)
  }

  /** Metadata, a limit that rejects nothing, and a result that keeps the rejection it ends on. */
  predicate LeavesRejection(e: Event) {
    match e
    case Metadata => true
    case RateLimit(rejected, _, _) => !rejected
    case ResultEvent(fields) =>
      || fields.subtype == Text("error_during_execution") || (fields.subtype.Missing? && fields.isError == Flag(true))
      || (fields.subtype == Text("success") && fields.isError == Flag(true)
          && fields.stopReason in {Missing, Null, Text("end_turn"), Text("stop_sequence")})
    case _ => false
  }

  /** A look-up finds a category exactly under the names that stand for it. */
  lemma LookUpsExactly(names: set<string>, error: string, status: Option<int>, c: Category)
    requires StartupCategory(c)
    ensures ClaudeError(names, error) == Some(c) <==> RejectsWith(AssistantError(error), c)
    ensures HttpRejection(status) == Some(c) <==> RejectsWith(ApiStatus(status), c)
  {
  }

  lemma KeptExactly(fields: RawTerminal)
    ensures KeepsRejection(true, fields) <==> LeavesRejection(ResultEvent(fields))
  {
    StopsExactly(fields);
    SubtypesExactly(Terminal(fields).subtype);
  }

  lemma StepDenies(names: set<string>, s: Startup, e: Event)
    ensures Denied(Step(names, s, e)) <==> Denied(s) || Denies(e)
  {
  }

  lemma {:induction false} DeniedExactly(names: set<string>, events: seq<Event>)
    ensures Denied(Steps(names, QUIET, events)) <==> exists e :: e in events && Denies(e)
  {
    if events != [] {
      var init, last := events[..|events| - 1], events[|events| - 1];
      DeniedExactly(names, init);
      StepDenies(names, Steps(names, QUIET, init), last);
      assert forall e :: e in events <==> e in init || e == last;
    }
  }

  lemma StepStands(names: set<string>, s: Startup, e: Event)
    ensures UntypedStands(Step(names, s, e))
            <==> if NamesInherited(names, e) then !Denied(s) else UntypedStands(s) && LeavesRejection(e)
  {
    if e.ResultEvent? {
      KeptExactly(e.fields);
    }
  }

  /** The error at `i` has such a name, nothing denied access before, and nothing took its rejection back since. */
  predicate StandsFrom(names: set<string>, events: seq<Event>, i: nat)
    requires i < |events|
  {
    && NamesInherited(names, events[i])
    && (forall j :: 0 <= j < i ==> !Denies(events[j])) && (forall j :: i < j < |events| ==> LeavesRejection(events[j]))
  }

  ghost predicate Standing(names: set<string>, events: seq<Event>) {
    exists i :: 0 <= i < |events| && StandsFrom(names, events, i)
  }

  /** Which streams of events end on an untyped rejection. */
  lemma {:induction false} UntypedStandsExactly(names: set<string>, events: seq<Event>)
    ensures UntypedStands(Steps(names, QUIET, events)) <==> Standing(names, events)
  {
    if events != [] {
      var n := |events| - 1;
      var init, last := events[..n], events[n];
      UntypedStandsExactly(names, init);
      StepStands(names, Steps(names, QUIET, init), last);
      DeniedExactly(names, init);
      StandingGrows(names, init, last);
      assert events == init + [last];
    }
  }

  lemma StandingGrows(names: set<string>, init: seq<Event>, last: Event)
    ensures Standing(names, init + [last])
            <==> if NamesInherited(names, last) then !exists e :: e in init && Denies(e)
                 else Standing(names, init) && LeavesRejection(last)
  {
    var n := |init|;
    forall i | 0 <= i < n
      ensures StandsFrom(names, init + [last], i) <==> StandsFrom(names, init, i) && LeavesRejection(last)
    {
      StandingShifts(names, init, last, i);
    }
    assert (init + [last])[n] == last && forall j :: 0 <= j < n ==> (init + [last])[j] == init[j];
    assert StandsFrom(names, init + [last], n) <==> NamesInherited(names, last) && !exists e :: e in init && Denies(e);
  }

  lemma StandingShifts(names: set<string>, init: seq<Event>, last: Event, i: nat)
    requires i < |init|
    ensures StandsFrom(names, init + [last], i) <==> StandsFrom(names, init, i) && LeavesRejection(last)
  {
    assert (init + [last])[|init|] == last;
    assert forall j :: 0 <= j < |init| ==> (init + [last])[j] == init[j];
  }

  // ---------------------------------------------------------------- the rejection a stream ends on

  predicate StandsAs(s: Startup, c: Category) {
    s.rejection.Some? && s.rejection.value.category == c
  }

  /** A rate limit that a client names after a demand for credits is still that demand. */
  predicate Sustains(e: Event, c: Category) {
    LeavesRejection(e) || (c.CreditsRequired? && e == AssistantError("rate_limit"))
  }

  lemma StepStandsAs(names: set<string>, s: Startup, e: Event, c: Category)
    requires StartupCategory(c) && !c.AccessDenied?
    ensures StandsAs(Step(names, s, e), c) <==>
              || (StandsAs(s, c) && Sustains(e, c))
              || (RejectsWith(e, c) && !Denied(s) && !(StandsAs(s, CreditsRequired) && e == AssistantError("rate_limit")))
  {
    match e
    case ResultEvent(fields) => KeptExactly(fields);
    case AssistantError(error) =>
      LookUpsExactly(names, error, None, c);
      LookUpsExactly(names, error, None, Quota);
    case ApiStatus(status) => LookUpsExactly(names, "", status, c);
    case _ =>
  }

  /** The event at `i` rejects with this category, nothing denied access before, and all that follows sustains it. */
  predicate EndsOn(events: seq<Event>, i: nat, c: Category)
    requires i < |events|
  {
    && RejectsWith(events[i], c)
    && (forall j :: 0 <= j < i ==> !RejectsWith(events[j], AccessDenied))
        && (forall j :: i < j < |events| ==> Sustains(events[j], c))
  }

  ghost predicate EndsWith(events: seq<Event>, c: Category) {
    exists i :: 0 <= i < |events| && EndsOn(events, i, c)
  }

  lemma EndsOnShifts(init: seq<Event>, last: Event, i: nat, c: Category)
    requires i < |init|
    ensures EndsOn(init + [last], i, c) <==> EndsOn(init, i, c) && Sustains(last, c)
  {
    assert (init + [last])[|init|] == last;
    assert forall j :: 0 <= j < |init| ==> (init + [last])[j] == init[j];
  }

  lemma EndsWithGrows(init: seq<Event>, last: Event, c: Category)
    ensures EndsWith(init + [last], c) <==>
              || (EndsWith(init, c) && Sustains(last, c))
              || (RejectsWith(last, c) && !exists e :: e in init && RejectsWith(e, AccessDenied))
  {
    var n := |init|;
    forall i | 0 <= i < n ensures EndsOn(init + [last], i, c) <==> EndsOn(init, i, c) && Sustains(last, c) {
      EndsOnShifts(init, last, i, c);
    }
    assert (init + [last])[n] == last && forall j :: 0 <= j < n ==> (init + [last])[j] == init[j];
    assert EndsOn(init + [last], n, c) <==> RejectsWith(last, c) && !exists e :: e in init && RejectsWith(e, AccessDenied);
  }

  /**
   * Which streams end on which rejection. A denial anywhere is final. Any other category stands when an
   * event of it came, no denial before it, and what followed sustains it; a quota gives way to credits.
   */
  lemma {:induction false} RejectionStandsExactly(names: set<string>, events: seq<Event>, c: Category)
    requires StartupCategory(c)
    ensures StandsAs(Steps(names, QUIET, events), c) <==>
              if c.AccessDenied? then exists e :: e in events && RejectsWith(e, c)
              else
                EndsWith(events, c) && !(c.Quota? && EndsWith(events, CreditsRequired))
  {
    DeniedExactly(names, events);
    if events != [] && !c.AccessDenied? {
      var init, last := events[..|events| - 1], events[|events| - 1];
      assert events == init + [last];
      DeniedExactly(names, init);
      RejectionStandsExactly(names, init, c);
      RejectionStandsExactly(names, init, CreditsRequired);
      StepStandsAs(names, Steps(names, QUIET, init), last, c);
      EndsWithGrows(init, last, c);
      EndsWithGrows(init, last, CreditsRequired);
    }
  }

  lemma StepsConcat(names: set<string>, s: Startup, a: seq<Event>, b: seq<Event>)
    ensures Steps(names, s, a + b) == Steps(names, Steps(names, s, a), b)
  {
    if b == [] {
      assert a + b == a;
    } else {
      assert (a + b)[..|a + b| - 1] == a + b[..|b| - 1];
      StepsConcat(names, s, a, b[..|b| - 1]);
    }
  }

  lemma {:induction false} LimitSustained(names: set<string>, s: Startup, after: seq<Event>)
    requires StandsAs(s, Quota) || StandsAs(s, CreditsRequired)
    requires forall e :: e in after ==> LeavesRejection(e) || e == AssistantError("rate_limit")
    ensures Steps(names, s, after).rejection == s.rejection && Steps(names, s, after).workBegan == s.workBegan
  {
    if after != [] {
      LimitSustained(names, s, after[..|after| - 1]);
      assert after[|after| - 1] in after;
    }
  }

  /** A reset time in seconds, if it is one that can be kept. */
  predicate ResetsIn(seconds: Option<int>, at: Option<int>) {
    if seconds.Some? && 0 < seconds.value <= 9007199254740991 then at == Some(seconds.value * 1000) else at == None
  }

  /** A limit keeps its reset time through the error that the client ends on. */
  lemma LimitKeepsItsReset(names: set<string>, before: seq<Event>, credits: bool, resetsAt: Option<int>, after: seq<Event>)
    requires forall e :: e in before ==> !RejectsWith(e, AccessDenied)
    requires forall e :: e in after ==> LeavesRejection(e) || e == AssistantError("rate_limit")
    ensures var s := Steps(names, QUIET, before + [RateLimit(true, credits, resetsAt)] + after);
            && StandsAs(s, if credits then CreditsRequired else Quota) && ResetsIn(resetsAt, s.rejection.value.resetAt)
            && s.workBegan == exists e :: e in before && ShowsWork(names, e)
  {
    var e := RateLimit(true, credits, resetsAt);
    var s := Steps(names, QUIET, before);
    DeniedExactly(names, before);
    WorkBeganExactly(names, before);
    OneMoreStep(names, QUIET, before, e);
    StepsConcat(names, QUIET, before + [e], after);
    LimitSustained(names, Step(names, s, e), after);
  }

  /**
   * How long the login of such a run is left alone, when its record was clean: until the owner acts for
   * credits; until the reset, a second when that has passed; five minutes when none is known.
   */
  lemma LimitReachesTheRecord(names: set<string>, before: seq<Event>, credits: bool, resetsAt: Option<int>, after: seq<Event>,
      p: Preset, interrupted: bool, now: int)
    requires forall e :: e in before ==> !RejectsWith(e, AccessDenied)
    requires forall e :: e in after ==> LeavesRejection(e) || e == AssistantError("rate_limit")
    requires now >= 0
    ensures var s := Steps(names, QUIET, before + [RateLimit(true, credits, resetsAt)] + after);
            var a := AttemptRound.Settled(p, AttemptRound.Ended(true, false, interrupted, s.workBegan, s.rejection)).0;
            && QuotaHealth.Recordable(a)
            && BlockedUntil(QuotaHealth.Recorded(WELL, a, now)) ==
               if credits then Forever
               else if resetsAt.Some? && 0 < resetsAt.value <= 9007199254740991 then
                 Until(if resetsAt.value * 1000 > now then resetsAt.value * 1000 else now + 1000)
               else Until(now + 5 * 60 * 1000)
  {
    LimitKeepsItsReset(names, before, credits, resetsAt, after);
  }

  /**
   * A failed client ends the round exactly when its stream denied access anywhere, ends on no rejection,
   * or ends on another one than a usage limit after work began.
   */
  lemma StreamIsFinalExactly(names: set<string>, events: seq<Event>)
    ensures var s := Steps(names, QUIET, events);
            var limited := EndsWith(events, Quota) || EndsWith(events, CreditsRequired);
            var rejected := limited || EndsWith(events, LoginUnavailable) || EndsWith(events, ProviderRejected)
                            || EndsWith(events, CliUnavailable) || Standing(names, events);
            AttemptRound.Final(AttemptRound.Ended(true, false, false, s.workBegan, s.rejection)) <==>
              || (exists e :: e in events && RejectsWith(e, AccessDenied)) || !rejected
              || (!limited && exists e :: e in events && ShowsWork(names, e))
  {
    RejectionStandsExactly(names, events, AccessDenied);
    RejectionStandsExactly(names, events, Quota);
    RejectionStandsExactly(names, events, CreditsRequired);
    RejectionStandsExactly(names, events, LoginUnavailable);
    RejectionStandsExactly(names, events, ProviderRejected);
    RejectionStandsExactly(names, events, CliUnavailable);
    UntypedStandsExactly(names, events);
    WorkBeganExactly(names, events);
    StepsAreCanonical(names, events);
  }

  lemma {:induction false} StepsAreCanonical(names: set<string>, events: seq<Event>)
    ensures Canonical(Steps(names, QUIET, events))
  {
    if events != [] {
      StepsAreCanonical(names, events[..|events| - 1]);
      StepIsCanonical(names, Steps(names, QUIET, events[..|events| - 1]), events[|events| - 1]);
    }
  }

  /** One error under such a name: the reader of the raw stream goes on to another setup, the reader of its summary stops. */
  lemma InheritedNameDivides(names: set<string>)
    requires "constructor" in names
    ensures var s := Step(names, QUIET, AssistantError("constructor"));
            && s == Startup(false, Some(Rejection(Untyped("constructor"), None)), None)
            && AttemptFailure(s.workBegan, s.rejection).continues
            && !AttemptFailure(Erased(s).workBegan, Erased(s).rejection).continues
  {
  }

  // ---------------------------------------------------------------- summaries

  /** The summary of a state, as an event: what is no category does not go through text. */
  function Summary(s: Startup): Event {
    EzStartup(s.workBegan,
              if s.rejection.None? then NoRejection
              else RawRejection(if UntypedStands(s) then None else Some(s.rejection.value.category),
                                if s.rejection.value.resetAt.None? then NoReset else ResetAt(s.rejection.value.resetAt.value)),
              if s.terminal.None? then None else Some(Raw(s.terminal.value)))
  }

  /** A reader that knows an earlier state of the sender learns the sender's present one, but for an untyped rejection. */
  lemma SummaryCatchesUp(names: set<string>, s: Startup, t: Startup)
    requires Canonical(t)
    ensures Step(names, s, Summary(t)) == Erased(t) <==> Later(s, t)
  {
  }

  // ---------------------------------------------------------------- lines

  /** How lines are read and summaries printed, and the names every object knows: JSON text and trimming stay abstract. */
  datatype Codec = Codec(blank: string -> bool, parse: string -> Option<Event>, print_: Startup -> string, names: set<string>)

  /** A printed summary is one nonblank line that parses to the summary it prints. */
  ghost predicate Faithful(codec: Codec) {
    codec.blank("") && forall s :: Canonical(s) ==> PrintsItself(codec, s)
  }

  ghost predicate PrintsItself(codec: Codec, s: Startup) {
    var text := codec.print_(s);
    '\n' !in text && text != "" && !codec.blank(text) && codec.parse(text) == Some(Summary(s))
  }

  /** A line that is not JSON counts as work: ambiguity never lets a round advance. */
  function Line(codec: Codec, s: Startup, text: string): Startup {
    if codec.blank(text) then s
    else if codec.parse(text).None? then Work(s)
    else Step(codec.names, s, codec.parse(text).value)
  }

  lemma LineIsLater(codec: Codec, s: Startup, text: string)
    requires Canonical(s)
    ensures Canonical(Line(codec, s, text)) && Later(s, Line(codec, s, text))
  {
    if codec.parse(text).Some? {
      StepIsCanonical(codec.names, s, codec.parse(text).value);
      StepIsLater(codec.names, s, codec.parse(text).value);
    }
  }

  datatype Reading = Reading(state: Startup, buffer: string)

  const START := Reading(QUIET, "")

  function Char(codec: Codec, r: Reading, c: char): Reading {
    if c == '\n' then Reading(Line(codec, r.state, r.buffer), "") else Reading(r.state, r.buffer + [c])
  }

  /** The reference: one character at a time, so how the text was cut cannot matter. */
  function Scan(codec: Codec, r: Reading, text: string): Reading {
    if text == "" then r else Char(codec, Scan(codec, r, text[..|text| - 1]), text[|text| - 1])
  }

  lemma {:induction false} ScanConcat(codec: Codec, r: Reading, a: string, b: string)
    ensures Scan(codec, r, a + b) == Scan(codec, Scan(codec, r, a), b)
  {
    if b == "" {
      assert a + b == a;
    } else {
      assert (a + b)[..|a + b| - 1] == a + b[..|b| - 1];
      ScanConcat(codec, r, a, b[..|b| - 1]);
    }
  }

  lemma {:induction false} ScanIsLater(codec: Codec, r: Reading, text: string)
    requires Canonical(r.state)
    ensures Canonical(Scan(codec, r, text).state) && Later(r.state, Scan(codec, r, text).state)
    ensures '\n' !in r.buffer ==> '\n' !in Scan(codec, r, text).buffer
  {
    if text != "" {
      var before := Scan(codec, r, text[..|text| - 1]);
      ScanIsLater(codec, r, text[..|text| - 1]);
      LineIsLater(codec, before.state, before.buffer);
    }
  }

  lemma {:induction false} ScanPartial(codec: Codec, r: Reading, text: string)
    requires '\n' !in text
    ensures Scan(codec, r, text) == Reading(r.state, r.buffer + text)
  {
    if text != "" {
      ScanPartial(codec, r, text[..|text| - 1]);
      assert r.buffer + text == r.buffer + text[..|text| - 1] + [text[|text| - 1]];
    } else {
      assert r.buffer + text == r.buffer;
    }
  }

  lemma ScanLine(codec: Codec, s: Startup, text: string)
    requires '\n' !in text
    ensures Scan(codec, Reading(s, ""), text + "\n") == Reading(Line(codec, s, text), "")
  {
    ScanPartial(codec, Reading(s, ""), text);
    ScanConcat(codec, Reading(s, ""), text, "\n");
    assert "" + text == text;
    assert "\n"[..0] == "";
  }

  /** The complete lines of a text and what follows the last of them. */
  function Split(text: string): (seq<string>, string) {
    if text == "" then ([], "")
    else
      var (lines, rest) := Split(text[..|text| - 1]);
      if text[|text| - 1] == '\n' then (lines + [rest], "") else (lines, rest + [text[|text| - 1]])
  }

  function Lines(codec: Codec, s: Startup, lines: seq<string>): Startup {
    if lines == [] then s else Line(codec, Lines(codec, s, lines[..|lines| - 1]), lines[|lines| - 1])
  }

  lemma {:induction false} SplitIsScan(codec: Codec, s: Startup, text: string)
    ensures Scan(codec, Reading(s, ""), text) == Reading(Lines(codec, s, Split(text).0), Split(text).1)
  {
    if text != "" {
      SplitIsScan(codec, s, text[..|text| - 1]);
      var (lines, rest) := Split(text[..|text| - 1]);
      assert (lines + [rest])[..|lines|] == lines;
    }
  }

  class StartupObserver {
    const codec: Codec
    var buffer: string
    var state: Startup

    constructor (codec: Codec)
      ensures this.codec == codec && Current() == START && Valid()
    {
      this.codec, buffer, state := codec, "", QUIET;
    }

    ghost predicate Valid()
      reads this
    {
      '\n' !in buffer && Canonical(state)
    }

    function Current(): Reading
      reads this
    {
      Reading(state, buffer)
    }

    method Write(chunk: string)
      requires Valid()
      modifies this
      ensures Valid() && Current() == Scan(codec, old(Current()), chunk)
    {
      ScanIsLater(codec, Current(), chunk);
      ScanPartial(codec, Reading(state, ""), buffer);
      ScanConcat(codec, Reading(state, ""), buffer, chunk);
      assert "" + buffer == buffer;
      SplitIsScan(codec, state, buffer + chunk);
      var (lines, rest) := Split(buffer + chunk);
      buffer := rest;
      for i := 0 to |lines|
        invariant buffer == rest && state == Lines(codec, old(state), lines[..i])
      {
        assert lines[..i + 1][..i] == lines[..i];
        state := Line(codec, state, lines[i]);
      }
      assert lines[..|lines|] == lines;
    }

    /** The end of the stream: an unfinished line counts too. */
    method Result() returns (s: Startup)
      requires Valid()
      modifies this
      ensures Valid() && s == state == Flushed(codec, old(Current())) && buffer == ""
    {
      LineIsLater(codec, state, buffer);
      state := Line(codec, state, buffer);
      buffer := "";
      return state;
    }
  }

  function Flushed(codec: Codec, r: Reading): Startup {
    Line(codec, r.state, r.buffer)
  }

  function Joined(chunks: seq<string>): string {
    if chunks == [] then "" else Joined(chunks[..|chunks| - 1]) + chunks[|chunks| - 1]
  }

  /** What an observer reports at the end of a stream delivered in these chunks. */
  function Observed(codec: Codec, chunks: seq<string>): Startup {
    Flushed(codec, Fed(codec, chunks))
  }

  function Fed(codec: Codec, chunks: seq<string>): Reading {
    if chunks == [] then START else Scan(codec, Fed(codec, chunks[..|chunks| - 1]), chunks[|chunks| - 1])
  }

  lemma {:induction false} ChunksDoNotMatter(codec: Codec, chunks: seq<string>)
    ensures Fed(codec, chunks) == Scan(codec, START, Joined(chunks))
  {
    if chunks != [] {
      ChunksDoNotMatter(codec, chunks[..|chunks| - 1]);
      ScanConcat(codec, START, Joined(chunks[..|chunks| - 1]), chunks[|chunks| - 1]);
    }
  }

  /** An observer that was denied access anywhere in the stream never lets the round go on. */
  lemma DenialIsFinal(codec: Codec, before: seq<string>, after: seq<string>)
    requires Denied(Fed(codec, before).state)
    ensures var s := Observed(codec, before + after);
            s.rejection == Fed(codec, before).state.rejection && !AttemptFailure(s.workBegan, s.rejection).continues
  {
    ChunksDoNotMatter(codec, before);
    ChunksDoNotMatter(codec, before + after);
    JoinedConcat(before, after);
    ScanConcat(codec, START, Joined(before), Joined(after));
    ScanIsLater(codec, START, Joined(before));
    ScanIsLater(codec, Fed(codec, before), Joined(after));
    var r := Fed(codec, before + after);
    LineIsLater(codec, r.state, r.buffer);
  }

  lemma {:induction false} JoinedConcat(a: seq<string>, b: seq<string>)
    ensures Joined(a + b) == Joined(a) + Joined(b)
  {
    if b == [] {
      assert a + b == a;
    } else {
      assert (a + b)[..|a + b| - 1] == a + b[..|b| - 1];
      JoinedConcat(a, b[..|b| - 1]);
    }
  }

  // ---------------------------------------------------------------- the host's summaries

  /** One arrival at the host: a chunk of the client's output, and the telemetry line of that moment if it is on. */
  datatype Piece = Piece(text: string, telemetry: Option<string>)

  /** A telemetry line is one line of metadata to the startup observer. */
  predicate Silent(codec: Codec, telemetry: Option<string>) {
    telemetry.Some? ==> '\n' !in telemetry.value && !codec.blank(telemetry.value) && codec.parse(telemetry.value) == Some(Metadata)
  }

  function Block(codec: Codec, s: Startup, telemetry: Option<string>): string {
    codec.print_(s) + if telemetry.Some? then "\n" + telemetry.value else ""
  }

  datatype Host = Host(reading: Reading, summary: string)

  /** What the host writes to the relay when its summary has become `next`. */
  function Emitted(summary: string, next: string): string {
    if next != summary then next + "\n" else ""
  }

  function OnData(codec: Codec, h: Host, piece: Piece): (Host, string) {
    var reading := Scan(codec, h.reading, piece.text);
    var next := Block(codec, reading.state, piece.telemetry);
    (Host(reading, next), Emitted(h.summary, next))
  }

  function OnClose(codec: Codec, h: Host, telemetry: Option<string>): string {
    Emitted(h.summary, Block(codec, Flushed(codec, h.reading), telemetry))
  }

  function Forward(codec: Codec, pieces: seq<Piece>): (Host, string) {
    if pieces == [] then (Host(START, ""), "")
    else
      var (h, out) := Forward(codec, pieces[..|pieces| - 1]);
      var (next, more) := OnData(codec, h, pieces[|pieces| - 1]);
      (next, out + more)
  }

  /** Everything the relay receives for a run whose client wrote these pieces. */
  function Forwarded(codec: Codec, pieces: seq<Piece>, telemetry: Option<string>): string {
    var (h, out) := Forward(codec, pieces);
    out + OnClose(codec, h, telemetry)
  }

  function Texts(pieces: seq<Piece>): seq<string> {
    if pieces == [] then [] else Texts(pieces[..|pieces| - 1]) + [pieces[|pieces| - 1].text]
  }

  lemma BlockIsRead(codec: Codec, known: Startup, s: Startup, telemetry: Option<string>)
    requires Faithful(codec) && Silent(codec, telemetry) && Canonical(s) && Later(known, s)
    ensures Scan(codec, Reading(known, ""), Block(codec, s, telemetry) + "\n") == Reading(Erased(s), "")
  {
    assert PrintsItself(codec, s);
    SummaryCatchesUp(codec.names, known, s);
    ScanLine(codec, known, codec.print_(s));
    if telemetry.None? {
      assert Block(codec, s, telemetry) == codec.print_(s);
    } else {
      assert Block(codec, s, telemetry) + "\n" == (codec.print_(s) + "\n") + (telemetry.value + "\n");
      ScanConcat(codec, Reading(known, ""), codec.print_(s) + "\n", telemetry.value + "\n");
      ScanLine(codec, Erased(s), telemetry.value);
    }
  }

  /** The host's remembered summary is the one of its state, or it has sent nothing yet. */
  ghost predicate Remembers(codec: Codec, s: Startup, summary: string) {
    (summary == "" && s == QUIET) || exists t: Option<string> :: Silent(codec, t) && summary == Block(codec, s, t)
  }

  /** Sending only what changed leaves the relay at the host's present state, as far as text carries it. */
  lemma EmittedCatchesUp(codec: Codec, s: Startup, t: Startup, summary: string, telemetry: Option<string>)
    requires Faithful(codec) && Silent(codec, telemetry) && Canonical(s) && Canonical(t) && Later(s, t)
             && Remembers(codec, s, summary)
    ensures Scan(codec, Reading(Erased(s), ""), Emitted(summary, Block(codec, t, telemetry))) == Reading(Erased(t), "")
    ensures Remembers(codec, t, Block(codec, t, telemetry))
  {
    assert PrintsItself(codec, t);
    if summary != Block(codec, t, telemetry) {
      BlockIsRead(codec, Erased(s), t, telemetry);
    } else {
      var was: Option<string> :| Silent(codec, was) && summary == Block(codec, s, was);
      BlockIsRead(codec, QUIET, s, was);
      BlockIsRead(codec, QUIET, t, telemetry);
    }
  }

  lemma {:induction false} ForwardKeepsUp(codec: Codec, pieces: seq<Piece>)
    requires Faithful(codec) && forall p :: p in pieces ==> Silent(codec, p.telemetry)
    ensures var (h, out) := Forward(codec, pieces);
            && h.reading == Fed(codec, Texts(pieces)) && Canonical(h.reading.state)
            && Scan(codec, START, out) == Reading(Erased(h.reading.state), "") && Remembers(codec, h.reading.state, h.summary)
  {
    if pieces != [] {
      var init, last := pieces[..|pieces| - 1], pieces[|pieces| - 1];
      ForwardKeepsUp(codec, init);
      var (h, out) := Forward(codec, init);
      var (next, more) := OnData(codec, h, last);
      ScanIsLater(codec, h.reading, last.text);
      EmittedCatchesUp(codec, h.reading.state, next.reading.state, h.summary, last.telemetry);
      ScanConcat(codec, START, out, more);
      assert Texts(pieces)[..|Texts(pieces)| - 1] == Texts(init);
    }
  }

  /**
   * A relay that reads the host's summaries, however they are cut, ends with what text carries of the
   * state of one that reads the client's own stream, however that is cut.
   */
  lemma SummariesCarryTheState(codec: Codec, pieces: seq<Piece>, telemetry: Option<string>, received: seq<string>, raw: seq<string>)
    requires Faithful(codec) && Silent(codec, telemetry) && forall p :: p in pieces ==> Silent(codec, p.telemetry)
    requires Joined(received) == Forwarded(codec, pieces, telemetry) && Joined(raw) == Joined(Texts(pieces))
    ensures Observed(codec, received) == Erased(Observed(codec, raw)) && Canonical(Observed(codec, raw))
  {
    var (h, out) := Forward(codec, pieces);
    var last := Flushed(codec, h.reading);
    ForwardKeepsUp(codec, pieces);
    LineIsLater(codec, h.reading.state, h.reading.buffer);
    EmittedCatchesUp(codec, h.reading.state, last, h.summary, telemetry);
    ScanConcat(codec, START, out, OnClose(codec, h, telemetry));
    ChunksDoNotMatter(codec, received);
    ChunksDoNotMatter(codec, raw);
    ChunksDoNotMatter(codec, Texts(pieces));
  }

  // ---------------------------------------------------------------- the events of a stream

  /** A blank line is no event; one that is not JSON counts as work. */
  function EventsOf(codec: Codec, lines: seq<string>): seq<Event> {
    if lines == [] then []
    else
      var init, last := EventsOf(codec, lines[..|lines| - 1]), lines[|lines| - 1];
      if codec.blank(last) then init else init + [codec.parse(last).GetOr(OtherEvent)]
  }

  function StreamEvents(codec: Codec, text: string): seq<Event> {
    EventsOf(codec, Split(text).0 + [Split(text).1])
  }

  lemma {:induction false} LinesAreSteps(codec: Codec, s: Startup, lines: seq<string>)
    ensures Lines(codec, s, lines) == Steps(codec.names, s, EventsOf(codec, lines))
  {
    if lines != [] {
      var init, last := lines[..|lines| - 1], lines[|lines| - 1];
      LinesAreSteps(codec, s, init);
      if !codec.blank(last) {
        OneMoreStep(codec.names, s, EventsOf(codec, init), codec.parse(last).GetOr(OtherEvent));
      }
    }
  }

  lemma OneMoreStep(names: set<string>, s: Startup, events: seq<Event>, e: Event)
    ensures Steps(names, s, events + [e]) == Step(names, Steps(names, s, events), e)
  {
    assert (events + [e])[..|events|] == events;
  }

  /** What is observed is what the events of the whole text say, the unfinished line included. */
  lemma ObservedIsSteps(codec: Codec, chunks: seq<string>)
    ensures Observed(codec, chunks) == Steps(codec.names, QUIET, StreamEvents(codec, Joined(chunks)))
  {
    var (lines, rest) := Split(Joined(chunks));
    ChunksDoNotMatter(codec, chunks);
    SplitIsScan(codec, QUIET, Joined(chunks));
    LinesAreSteps(codec, QUIET, lines + [rest]);
    assert (lines + [rest])[..|lines|] == lines;
  }

  /**
   * The two readers end in the same state exactly when no untyped rejection stands at the end of the
   * stream, and they judge the attempt alike exactly when none stands or work had begun.
   */
  lemma SummariesSayTheSameExactly(codec: Codec, pieces: seq<Piece>, telemetry: Option<string>, received: seq<string>,
      raw: seq<string>)
    requires Faithful(codec) && Silent(codec, telemetry) && forall p :: p in pieces ==> Silent(codec, p.telemetry)
    requires Joined(received) == Forwarded(codec, pieces, telemetry) && Joined(raw) == Joined(Texts(pieces))
    ensures var (a, b) := (Observed(codec, received), Observed(codec, raw));
            var events := StreamEvents(codec, Joined(raw));
            && (a == b <==> !Standing(codec.names, events))
            && (AttemptFailure(a.workBegan, a.rejection) == AttemptFailure(b.workBegan, b.rejection)
                <==> !Standing(codec.names, events) || exists e :: e in events && ShowsWork(codec.names, e))
  {
    var events := StreamEvents(codec, Joined(raw));
    SummariesCarryTheState(codec, pieces, telemetry, received, raw);
    ObservedIsSteps(codec, raw);
    UntypedStandsExactly(codec.names, events);
    WorkBeganExactly(codec.names, events);
  }

  /** What a round learns of a launch is what an observer can report, and typed exactly when no untyped rejection stands. */
  lemma LaunchIsTypedExactly(codec: Codec, raw: seq<string>, failed: bool, cancelled: bool, interrupted: bool)
    ensures var s := Observed(codec, raw);
            var result := AttemptRound.Ended(failed, cancelled, interrupted, s.workBegan, s.rejection);
            && AttemptRound.FromObserver(result)
            && (AttemptRound.Typed(result) <==> !Standing(codec.names, StreamEvents(codec, Joined(raw))))
  {
    ObservedIsCanonical(codec, raw);
    ObservedStands(codec, raw);
  }

  lemma ObservedIsCanonical(codec: Codec, raw: seq<string>)
    ensures Canonical(Observed(codec, raw))
  {
    ChunksDoNotMatter(codec, raw);
    ScanIsLater(codec, START, Joined(raw));
    var r := Fed(codec, raw);
    LineIsLater(codec, r.state, r.buffer);
  }

  lemma ObservedStands(codec: Codec, raw: seq<string>)
    ensures UntypedStands(Observed(codec, raw)) <==> Standing(codec.names, StreamEvents(codec, Joined(raw)))
  {
    ObservedIsSteps(codec, raw);
    UntypedStandsExactly(codec.names, StreamEvents(codec, Joined(raw)));
  }

  /** The host's side: it observes, and writes a block whenever its summary changed. */
  class HostForwarder {
    const startup: StartupObserver
    var summary: string

    constructor (codec: Codec)
      ensures startup.codec == codec && Valid() && Now() == Host(START, "") && fresh(startup)
    {
      startup := new StartupObserver(codec);
      summary := "";
    }

    ghost predicate Valid()
      reads this, startup
    {
      startup.Valid()
    }

    function Now(): Host
      reads this, startup
    {
      Host(startup.Current(), summary)
    }

    method Data(piece: Piece) returns (text: string)
      requires Valid()
      modifies this, startup
      ensures Valid() && (Now(), text) == OnData(startup.codec, old(Now()), piece)
    {
      startup.Write(piece.text);
      var next := Block(startup.codec, startup.state, piece.telemetry);
      text := "";
      if next != summary {
        summary := next;
        text := summary + "\n";
      }
    }

    method Close(telemetry: Option<string>) returns (text: string)
      requires Valid()
      modifies this, startup
      ensures Valid() && text == OnClose(startup.codec, old(Now()), telemetry)
    {
      var last := startup.Result();
      var next := Block(startup.codec, last, telemetry);
      text := if next != summary then next + "\n" else "";
    }
  }
}
