# Ez: dispatch, setups, control state and delivery

Ez relays chat messages, application events and scheduled jobs to command-line AI clients. Its
correctness lies in small protocols that run over days: an occurrence is queued once although
files are written one after another, a login that met its limit is not entered again, a
conversation keeps its client, a message is sent at most once. This project models those protocols
in Dafny and proves what they keep.

`dafny verify dfyconfig.toml` checks the whole project. The files do not depend on anything else.

## What is modelled

**Scheduled dispatch.** `ScheduleTime` is the calendar: cron fields, the day search with its three
offset probes over an abstract time zone, and intervals. `ScheduleProtocol` is one scheduled job as a
transition system: the relay's ticker, any number of command-line workers (edit, enable, manual
trigger, quota retry), the life of runs and the clock interleave in steps of one durable write at most,
and every participant may fail between two of its steps. A step holds the reads that lead to
its write: `Check`, `EditCursor`, `TriggerBegin` and `RetryPick` each merge several reads or a listing of the runs,
and so do `Commit`, `TriggerCommit` and `RetryCheck` inside the lock; a change between those reads is not seen.
`Scheduler` is the class whose methods perform whole calls; each is proved to be a run of protocol steps.

**Ordered setups.** `Setups` holds login scopes, quota health, the dispatch gate, the rotation of
candidates and the chooser. `AttemptRound` is the loop that launches, watches and advances.
`QuotaHealth` is what an outcome leaves in a login's record. `StartupStream` is the observer of a
client's output, the host that forwards summaries of it, and the relay that reads those.

**Control state.** `Conversations` defines the stored state, the shape a reader accepts (`IsState`), the
invariant the transitions keep (`Sound`), and what may happen to a conversation (`Evolves`).
`Capture`, `LinkedLogins` and `Presets` hold the larger edits, `ControlStore` the class with its
transitions. Its preconditions ask for the invariant, and for identifiers that no conversation has.

**Delivery and admission.** `Inbox` seals updates into batches. `Sources` is the event source with
its cursor and the relay with its pending batch. `Delivery` is the write-ahead protocol of sends
through worker, source and provider. `Budget` is the admission of application events. `Slots` is
the start lock with its places for running clients. In `Delivery`, `Sources` and `Slots` the steps
form a transition system, and a class performs whole calls as such steps.

**Native clients.** `Frames` prints and reads WebSocket frames (sections 5.2 and 5.3 of RFC 6455).
`CodexSession` is the end of a native session. `Telemetry` counts tool calls.

`Options` and `Sequences` hold shared shapes and facts about sequences.

## What the code does not keep by itself

Some properties that suggest themselves are false of the code as it stands. For each there is a
concrete run, and a lemma that says exactly when the property holds.

* The three probes of the calendar see a switch of the zone's offset only up to the start of the next
  day, counted as if the day were one in UTC. A zone that switches in the last hours of a day shows wall times that
  the search takes for nonexistent (`LateSwitchIsMissed`); a day is searched completely exactly when
  no switch lies behind its last probe (`FindsDayExactly`). A whole search answers with the least due
  instant exactly when every due instant that is hidden so has an earlier one that is seen (`NextCron`); switches on days
  that do not match, or behind the day of some seen instant, do no harm (`LateSwitchesElsewhereDoNotMatter`).
* A manual trigger with a preflight reads the cursor before its lock and writes it back behind its run. An
  occurrence that was skipped in between comes due again after a later one
  (`StaleReceiptReordersDueTimes`). Due times are in order in every run without such a receipt, preflights or
  not (`DueTimesIncrease`); a receipt that names an occurrence passed over meanwhile lets the order break
  from there on, unless an ended run holds the schedule (`RevivingReceiptDisorders`).
* The table of a client's errors is an object, so an error called `constructor` finds something that is no
  category. The reader of the raw stream then goes on to another setup, the reader of its summary
  stops (`InheritedNameDivides`). Both end in the same state exactly when no such rejection
  stands at the end of the stream (`SummariesSayTheSameExactly`, `UntypedStandsExactly`).
* The patch of a quota retry does not look at the run again. What keeps it from repeating finished
  work, and from starting one run twice, is that the relay holds its start lock around the whole
  retry (src/index.ts:911-912, src/index.ts:1146): `RetryIsSoundExactly`, `LimitHoldsExactly`.
* A launch can fail after its client took its place, when a stop mark cannot be read or the process number
  cannot be saved (src/index.ts:498, src/index.ts:503). The place is freed while the client lives, and nothing waits
  for it. Each such client comes on top of the background limit, and nothing else does (`LeftClientsComeOnTop`).
* The shape check of the control state is not inductive: capturing a message can bind an unbound
  conversation to an engine that is among its linked logins, and the store cannot read the result
  (`CaptureCanWriteTheUnreadable`, `ReadableAfterCaptureExactly`). The store's own transitions never
  link a login to an unbound conversation, and with that in the invariant every transition keeps it.
* A seventeenth linked login drops the oldest one with its native session (`WithLinkKeeps`).
* An application's reply is queued before it is counted and remembered. A reply that is tried again
  is queued again exactly when none under its key was saved (`QueuedAgainExactly`), so it goes out once for each failed
  save and once more for the one that succeeds (`TimesExactly`); what goes out exceeds the budget by the failed
  saves (`QueuedBeyondTheBudget`). Messages through a chat source are
  marked first and never go out twice (`CalledAtMostOnce`).
* A source forgets a message when it is released. Delivered again, it is stored under a new cursor, and with
  another message in its batch it is given to a second run (`RedeliveryGivesTwoRuns`). A message is given to two
  runs exactly when it is in two batches with different lists of its conversation (`TwoRunsExactly`); one that is not
  captured again after its release never is.
* The frame reader stops at a close frame and goes on with the next chunk. How bytes are cut shows
  exactly when something meaningful follows a close (`ChunkingIsInvisibleExactly`).
* Tool counts by name live in an object that already knows names such as `constructor`. The totals
  are the sums of the entries exactly when no tool has such a name (`TotalsAreSumsExactly`).
* A native session settles the answer to its goal question after the messages that arrived in the same chunk.
  If one of them names a new goal, an older answer still ends the session with zero
  (`LateReplyEndsAGoal`). A zero exit is clean exactly when the message that caused it settled the last word on
  the goal (`ZeroIsCleanExactly`, `ZeroMeansDoneExactly`).
* An admission is saved before its run is made. An event whose run could not be made stays admitted and
  is never admitted again (`AdmittedExactly`).
* The answer to a ping writes its length in one byte. The other side reads back what it sent exactly when that was
  shorter than 126 bytes, as section 5.5 of RFC 6455 demands of control frames (`PongIsReadExactly`).
* An hour that meets two windows can admit twice the hourly limit of an application grant, and no more
  (`TwiceIsReached`, `AnyHourIsBounded`).

## Assumptions

Digests that name runs and receipts are injective, and random identifiers are fresh. Clocks are
parameters; where order matters they do not go back. Timestamps are whole milliseconds or minutes.
A held lock excludes others. JSON text, trimming and printing of summaries are functions with one
stated assumption: a printed summary is one nonblank line that parses to what it says (`Faithful`). A
time zone is a function from minutes to wall-clock minutes; `Regular` says that its offsets lie within a day
of UTC and that within any three days it switches at most once. The ledger of runs stays intact, and in `Slots` the
relay's writes to it succeed, but for those behind a launch whose client has its place. Comparing two
presets as JSON text is comparing their fields.

## Model

| member | source | states |
|---|---|---|
| `ScheduleTime.FitsExactly` | src/schedule-time.ts:13-17 | a part is in range exactly when its numbers lie between the ends of the field in order and its step, if any, is from 1 to one above the field's end |
| `ScheduleTime.DenotesExactly` | src/schedule-time.ts:13-19 | a part denotes the numbers from its first one on in its steps up to its last one; a single number with a step goes on to the end of the field |
| `ScheduleTime.PartValues` | src/schedule-time.ts:13-19 | the values listed by the stepping loop are exactly the numbers one cron part denotes between its ends |
| `ScheduleTime.Field` | src/schedule-time.ts:10-22 | a field is refused exactly when some part is out of range; otherwise it denotes exactly the union of its comma, range and step parts |
| `ScheduleTime.Weekdays` | src/schedule-time.ts:27 | weekdays 0 and 7 both name Sunday, and no other value is added or lost |
| `ScheduleTime.ParseCalendar` | src/schedule-time.ts:23-28 | five fields or none: each parsed field is the set its text denotes, and the star flags are those of the day and weekday fields |
| `ScheduleTime.WeekdaysFollow` | src/schedule-time.ts:71 | day 0 is a Thursday, and weekdays follow one another from 0 to 6 |
| `ScheduleTime.DaysExactly` | src/schedule-time.ts:70-72 | a day is admitted by its month and by its date and weekday: by both when either field begins with a star, else by either alone |
| `ScheduleTime.StarLeavesTheOther` | src/schedule-time.ts:71-72 | a plain star for the date leaves the choice to the listed weekdays, and a plain star for the weekday to the listed dates |
| `ScheduleTime.MatchingExactly` | src/schedule-time.ts:75-76 | a wall time the search answers with falls on an admitted day, at a listed hour and minute, and every such wall time matches |
| `ScheduleTime.DueExactly` | src/schedule-time.ts:61-84 | an instant is due exactly when it is the first that shows its wall time, that wall time falls on an admitted day at a listed hour and minute, and it lies in the window |
| `ScheduleTime.ProbeFindsFirst` | src/schedule-time.ts:73-79 | on a day whose three probes see every offset, the candidate chosen for a wall time is the first instant that shows it |
| `ScheduleTime.FindsDayExactly` | src/schedule-time.ts:73-79 | in a regular zone a day's wall times are all found at their first instants if and only if no switch lies after the last probe of that day |
| `ScheduleTime.LateSwitchIsMissed` | src/schedule-time.ts:73-79 | a concrete zone that switches in the last hours of a day: a wall time that is shown is never found |
| `ScheduleTime.BestOnDay` | src/schedule-time.ts:74-81 | the double loop over hours and minutes returns the least accepted instant of the day, or none when nothing is accepted |
| `ScheduleTime.SearchDays` | src/schedule-time.ts:67-84 | days are tried in order; every day passed over has no accepted wall time, and the search stops only at the horizon or past the end |
| `ScheduleTime.NextCron` | src/schedule-time.ts:61-84 | a returned instant lies in [max(after+1,start), until] and its wall time matches all fields and the day rule; in a regular zone the answer is the least due instant if and only if every due instant up to the horizon that hides behind the last probe of its day has an earlier due one that does not |
| `ScheduleTime.LateSwitchesElsewhereDoNotMatter` | src/schedule-time.ts:67-84 | that condition holds when no matching day up to the day of some seen due instant, to the end or to the horizon has a late switch |
| `ScheduleTime.NoneMissed` | src/schedule-time.ts:67-84 | nothing due precedes the answer, and without an answer nothing is due within 366*8 days of the first day |
| `ScheduleTime.IntervalIsLeast` | src/schedule-time.ts:56-60 | the interval formula gives exactly the least start + k*interval that is after the given instant |
| `ScheduleTime.NextOccurrence` | src/schedule-time.ts:53-85 | whatever the trigger, a returned occurrence is after the given instant and is one that the trigger names; for one-time and interval triggers it is the least such, for cron triggers exactly when every hidden due instant has a seen one before it |
| `ScheduleProtocol.ActiveIsSmall` | src/scheduler.ts:233 | an edit finds at most one occurrence in flight, so its list of continuing runs never reaches the limit of 100 |
| `ScheduleProtocol.StepKeepsInv` | src/scheduler.ts:227-288 | every step of tick, trigger, edit, enable, retry and run life keeps the protocol invariant, with failures allowed between any two writes |
| `ScheduleProtocol.OneCurrentOccurrence` | src/scheduler.ts:58-62 | in every reachable state at most one run is queued or running, and it is an occurrence of the definition saved at that moment, through any chain of staged edits |
| `ScheduleProtocol.DueTimesIncrease` | src/scheduler.ts:347-392 | in every run in which no receipt writes back a cursor that names an occurrence passed over meanwhile, with preflights or without, the ticker's runs of a revision have strictly increasing due times even when cursor writes fail, the pending occurrence is behind nothing dispatched, and a finishing tick leaves a cursor that is null or past the clock it read |
| `ScheduleProtocol.PlainIsOrderly` | src/scheduler.ts:325-335 | a run in which no edit gives the definition a preflight has no such receipt, so its due times are in order |
| `ScheduleProtocol.RevivingReceiptDisorders` | src/scheduler.ts:325-335 | from every reachable state in which a receipt does write back such a cursor, a run goes on to one that is out of order, unless an ended run holds the schedule |
| `ScheduleProtocol.StaleReceiptReordersDueTimes` | src/scheduler.ts:210-218 | a reachable run in which a trigger with a preflight writes back an old cursor and a skipped occurrence runs after a later one |
| `ScheduleProtocol.EndedChangesExactly` | src/scheduler.ts:277-288 | an ended run changes status in one step only: the patch of a retry that chose this run |
| `ScheduleProtocol.RunsAreAddedExactly` | src/scheduler.ts:320-389 | a run is added exactly by a tick's or a trigger's commit on the saved, enabled and idle definition, under the due time or the key; it is queued |
| `ScheduleProtocol.StatusChangesExactly` | src/scheduler.ts:277-288 | a run starts, ends with the status it settled on, waits for its quota or is requeued by the retry that chose it, exactly by these steps |
| `ScheduleProtocol.CheckPassesExactly` | src/scheduler.ts:356-362 | the ticker passes its check exactly when the task is due, nothing is in flight, and no run of the definition was interrupted or, under its condition, failed; otherwise nothing changes |
| `ScheduleProtocol.TriggerBeginsExactly` | src/scheduler.ts:302-319 | a manual trigger begins exactly with a new key on an enabled task without such a run |
| `ScheduleProtocol.CallsBeginExactly` | src/scheduler.ts:227-276 | an edit begins exactly on the revision its caller read, a tick on an enabled task, and a retry with a current, quota-blocked, uninterrupted run that is alone in flight |
| `ScheduleProtocol.EditGoesOnExactly` | src/scheduler.ts:189-239 | an edit goes on exactly when nothing of the task is in flight or it is staged, and when its trigger has an occurrence ahead; the new definition keeps the enabled flag, names the runs in flight, and has the pending occurrence when its trigger stays and that lies ahead |
| `ScheduleProtocol.AnyoneMayFail` | src/scheduler.ts:98-101 | any participant may fail between two of its steps, and gives up its place and its lock only |
| `ScheduleProtocol.InterruptedStopsUntilEdited` | src/scheduler.ts:60-62 | behind an interrupted run no step of any participant adds a run or moves the cursor, over whole runs of steps, until an edit publishes another definition |
| `ScheduleProtocol.RetryRepeatsCompleted` | src/scheduler.ts:277-288 | without the start lock a retry can queue a run again that completed between choice and patch |
| `ScheduleProtocol.RetryIsSoundExactly` | src/index.ts:911-912 | every run a retry requeues is still waiting or failed on quota alone, if and only if the whole retry is made under the start lock |
| `Scheduler.TaskScheduler.Tick` | src/scheduler.ts:347-392 | one pass over the task, with or without its final cursor write, leaves exactly the state of the specification and creates at most one run; with an interrupted run of the definition, or under its condition a failed one, it changes nothing |
| `Scheduler.HeldIsNotDispatched` | src/scheduler.ts:60-62 | with such a run a tick changes nothing and a trigger is refused |
| `Scheduler.FreeIsDispatched` | src/scheduler.ts:356-389 | without one, an enabled, due and idle task gets exactly the run of its due time, the cursor moves to the next occurrence, and a trigger is accepted |
| `Scheduler.IdleTicks` | src/scheduler.ts:349-362 | a tick of a paused task, before the due time, or with work in flight changes nothing |
| `Scheduler.SkippedIsPassed` | src/scheduler.ts:364-375 | a skipped occurrence only moves the cursor past the present |
| `Scheduler.TickIsRun` | src/scheduler.ts:356-389 | that pass is a run of protocol steps, so whatever holds of reachable states holds after it |
| `Scheduler.TaskScheduler.Edit` | src/scheduler.ts:227-239 | refused exactly on a stale revision, on work in flight without staging, or without a future occurrence; accepted, the new definition keeps the enabled flag, names the runs in flight and has its cursor |
| `Scheduler.EditIsRun` | src/scheduler.ts:189-209 | the edit is the run of its lock, list, cursor and publish steps |
| `Scheduler.EditKeepsPending` | src/scheduler.ts:189-205 | an accepted edit leaves an occurrence that is not before now; with the same trigger the pending one survives when it lies ahead, and the cursor of the old revision stays |
| `Scheduler.TaskScheduler.Enable` | src/scheduler.ts:240-247 | only the enabled flag changes: cursor, revision and continuing runs stay |
| `Scheduler.EnableIsRun` | src/scheduler.ts:240-247 | enabling is a run of protocol steps |
| `Scheduler.TaskScheduler.Trigger` | src/scheduler.ts:302-336 | a known request key returns its run and changes nothing; otherwise a run is queued only for an enabled, idle task of that revision, and never while a run of it awaits review |
| `Scheduler.TriggerIsRun` | src/scheduler.ts:325-335 | the manual trigger is a run of protocol steps, receipt written back included |
| `Scheduler.TaskScheduler.RetryQuota` | src/scheduler.ts:261-292 | the run is queued again exactly when it is current, quota-blocked, uninterrupted and alone in flight |
| `Scheduler.RetryIsRun` | src/scheduler.ts:277-288 | the retry is a run of its pick, lock, check and patch steps |
| `Setups.EarliestBoundIsLeast` | src/setup-fallback.ts:78 | the wait's end is one of the candidates' bounds and none is earlier |
| `Setups.QuotaWaitIgnoresOrder` | src/setup-fallback.ts:75-80 | the dispatch gate gives the same answer for every permutation of the candidates |
| `Setups.WaitEndsAtRetry` | src/setup-fallback.ts:75-80 | a wait is in the future, and with the record unchanged it ends exactly at the instant it names, or never |
| `Setups.FailureContinuesExactly` | src/setup-fallback.ts:57-61 | of the rejections an observer can report, a failure continues exactly on the seven categories that allow it and on an untyped one, with the reset time of its rejection; once work began, exactly on a usage limit; access denial, uncertainty and other failures after work stop the chain |
| `Setups.SharedScopeExactly` | src/setup-fallback.ts:106-113 | two setups spend one quota exactly when they name one upstream provider, or one client and one named login; both Codex clients are one |
| `Setups.SameChoiceExactly` | src/ai.ts:19-21 | two setups are one choice exactly when they differ in identifier and name at most |
| `Setups.ProviderExactly` | src/ai.ts:56 | an OpenCode setup runs at the part of its model before the first slash, any other at its own provider |
| `Setups.SameModelExactly` | src/setup-fallback.ts:93 | a setup belongs to the leading group exactly when it differs from the primary in login, identifier and name at most |
| `Setups.LeadingGroupEnd` | src/setup-fallback.ts:93-94 | the end found is the end of the longest leading group of same client, provider, model and effort |
| `Setups.BestLogin` | src/setup-fallback.ts:95-99 | the first of the unblocked logins with the latest success, or the primary when there is none |
| `Setups.SetupCandidates` | src/setup-fallback.ts:91-101 | the result is a permutation of the saved setups in which only the leading group is rotated, with its most recently successful login first |
| `Setups.RotatedIsDistinct` | src/setup-fallback.ts:100 | rotating keeps distinct setups distinct |
| `Setups.ResolveFallbacks` | src/ai.ts:43-53 | the loop computes the resolved chain of the specification, entry by entry, each under its label cut to 80 characters |
| `Setups.ResolvesExactly` | src/ai.ts:43-53 | an entry keeps its identifier, client and login; one of the primary's client that names no setting takes all of the primary's, any other its own; it is shown by the first 80 characters of its label |
| `Setups.LabelsRead` | src/ai.ts:54 | a label names client, login, provider, model and effort, and says client default and default effort where they are not set |
| `Setups.ResolvedIsDistinct` | src/ai.ts:43-53 | primary and fallbacks are pairwise different choices, each fallback comes from a chain entry, and every chain entry is represented |
| `Setups.NextSetup` | src/setup-fallback.ts:117-131 | the loop computes the chooser of the specification: skips in order up to the first free untried candidate |
| `Setups.ExhaustedExactly` | src/setup-fallback.ts:118-119 | a scope is closed exactly when some attempt in it met a limit, a demand for credits or a login rejection, and the last such attempt says why |
| `Setups.NextIsFresh` | src/setup-fallback.ts:121-130 | whatever is chosen or skipped is an untried candidate, skipped ones have an obstacle and are recorded with it, the chosen one has none, and nothing is named twice |
| `Setups.NextIsFirst` | src/setup-fallback.ts:121-130 | the setup chosen is the first candidate that is neither tried nor obstructed, and none is chosen when there is none |
| `Setups.GateAgrees` | src/setup-fallback.ts:75-80 | for nonempty candidates the gate lets work through if and only if the chooser without attempts finds a setup |
| `AttemptRound.AdvanceKeeps` | src/setup-fallback.ts:115-131 | recording the chooser's skips and launching its choice keeps the round sound |
| `AttemptRound.SettleKeeps` | src/index.ts:363-365 | settling the last attempt keeps the round sound |
| `AttemptRound.RoundIsBounded` | src/setup-fallback.ts:116 | a sound round never holds more attempts than there are candidates |
| `AttemptRound.ChooserGivesUpOnlyAtTheEnd` | src/setup-fallback.ts:130 | when nothing is chosen every candidate was tried or is now recorded as skipped |
| `AttemptRound.OwnersWorkAlwaysStarts` | src/index.ts:368-379 | work the owner waits for always starts, on the first setup when all cool down; scheduled work starts exactly when the gate lets it through |
| `AttemptRound.HealthCountsLater` | src/index.ts:368-379 | quota health is ignored from the start of a round on or not at all |
| `AttemptRound.SettledKeeps` | src/index.ts:559-564 | however a launch ends, the settled round is sound, and open for another setup only when the attempt continues |
| `AttemptRound.SettledMeans` | src/index.ts:442-452 | a launch lets the round go on exactly when its client was missing, or it failed uninterrupted on a rejection other than an access denial, and after work only on a usage limit; each is recorded under its own category and reset time |
| `AttemptRound.SetupRound.Advance` | src/index.ts:372-395 | without authority nothing changes; otherwise the choice, the recorded skips and the ignore flag are exactly those of the specification |
| `AttemptRound.SetupRound.Launch` | src/index.ts:396-452 | one launched attempt is appended and settled by its outcome: a missing client, a failed launch or an ended client |
| `AttemptRound.SetupRound.LaunchAndAdvance` | src/index.ts:578-582 | one turn of the loop lengthens the round, stays within the candidates and keeps it sound; behind a launch that is not final the chooser answers next, and nothing follows any other |
| `AttemptRound.SetupRound.Run` | src/index.ts:372-590 | over a whole round no setup is launched twice, no closed login scope is entered again, each launch is recorded in its turn under what it ended with, all but the last let the round go on, and the round ends only for lost authority, an exhausted list, or a last launch that completed, was cancelled or interrupted, or failed in a way that forbids another; where no launch ends on an untyped rejection, every attempt it went on after is of a typed category |
| `QuotaHealth.OutcomeKeepsTheWait` | src/control-state.ts:498-531 | after a quota or credits rejection the login is blocked past now, a wait still running is never shortened, a success clears one that is over, and the failure count stays in 0..4 |
| `QuotaHealth.CountsExactly` | src/control-state.ts:516-527 | only a limit met while no wait was running and without a future reset sets a retry time, past now; it raises the failure count by one, up to four, exactly unless it is the first and names a reset already past, and then the count becomes 0 |
| `QuotaHealth.WaitExactly` | src/control-state.ts:511-527 | after a credits demand the login waits for the owner, after a limit with a reset to come until the later of that and the wait at hand, after any other limit as long as a running wait says, else a second or 5, 15, 30 or 60 minutes; a login rejection changes no wait |
| `QuotaHealth.BackoffGrows` | src/control-state.ts:522-525 | limits without a reset time, each met after its wait, wait 5, 15, 30, 60 minutes and then stay at 60 |
| `QuotaHealth.LimitClosesTheScope` | src/control-state.ts:498-531 | after a limit the chooser skips every setup of that login scope, and setups of other scopes are judged as before |
| `StartupStream.TerminalIsStable` | src/setup-fallback.ts:22-35 | re-validating a native terminal that was read once changes nothing |
| `StartupStream.StatusExactly` | src/setup-fallback.ts:22-35 | a result counts as failed exactly when it is flagged so or names one of the four errors, and as completed exactly when it is a success, not flagged, without a competing stop reason |
| `StartupStream.StepIsCanonical` | src/setup-fallback.ts:182-226 | every event leaves only typed rejections, or an untyped one without a reset time, and re-readable terminals |
| `StartupStream.StepIsLater` | src/setup-fallback.ts:180-226 | no event takes back that work began, an access denial, or that a terminal was seen |
| `StartupStream.WorkBeganExactly` | src/setup-fallback.ts:188-225 | work began exactly when some event showed it: a summary that says so, or anything that is neither known metadata, nor a status or error name that stands for a category, nor an inherited name |
| `StartupStream.WorkSupersedes` | src/setup-fallback.ts:181 | work takes back every rejection but an access denial |
| `StartupStream.DeniedExactly` | src/setup-fallback.ts:180-225 | a stream ends denied exactly when one of its events denies access: a summary, a status 403 or one of four error names |
| `StartupStream.UntypedStandsExactly` | src/setup-fallback.ts:141-225 | a stream ends on an untyped rejection exactly when some error has an inherited name, nothing denied access before it, and only metadata, harmless limits and results that keep the rejection follow |
| `StartupStream.RejectionStandsExactly` | src/setup-fallback.ts:141-225 | for each category, the events named by their limits, statuses and error names: a denial anywhere is final; any other stands exactly when an event of it came, no denial before it, and only events that keep it followed; a rate limit behind a demand for credits is still that demand |
| `StartupStream.LimitKeepsItsReset` | src/setup-fallback.ts:211-224 | a limit keeps its category and its reset time through the error that the client ends on |
| `StartupStream.LimitReachesTheRecord` | src/setup-fallback.ts:211-224 | from the events to the record of the login: credits wait for the owner, a limit for its reset, a second when that has passed, five minutes when none is known |
| `StartupStream.StreamIsFinalExactly` | src/setup-fallback.ts:141-225 | a failed client ends the round exactly when its stream denied access, ends on no rejection, or ends on another than a usage limit after work began |
| `StartupStream.InheritedNameDivides` | src/setup-fallback.ts:223-225 | an error called `constructor` alone: the raw reader goes on to another setup, the reader of the summary does not |
| `StartupStream.SummaryCatchesUp` | src/setup-fallback.ts:186-198 | applying a sender's summary gives what text carries of the sender's state if and only if that state is later than what is known |
| `StartupStream.SplitIsScan` | src/setup-fallback.ts:228-233 | splitting a buffer into lines reads the same as going through it character by character |
| `StartupStream.StartupObserver.Write` | src/setup-fallback.ts:228-233 | writing a chunk has exactly the effect of reading its characters one after another |
| `StartupStream.StartupObserver.Result` | src/setup-fallback.ts:234 | the end of the stream reads the unfinished line and empties the buffer |
| `StartupStream.ChunksDoNotMatter` | src/setup-fallback.ts:228-234 | what is observed depends on the text alone, not on how it was cut |
| `StartupStream.DenialIsFinal` | src/setup-fallback.ts:180-181 | an access denial anywhere in the stream is the final rejection, and the attempt never continues |
| `StartupStream.HostForwarder.Data` | src/host-executor.ts:291-296 | a chunk is observed, and the summary block is written exactly when it changed |
| `StartupStream.HostForwarder.Close` | src/host-executor.ts:301-305 | at close the final state is written exactly when it differs from the last block |
| `StartupStream.BlockIsRead` | src/host-executor.ts:294 | a relay that knows an earlier state reads a block, telemetry line included, as the state it summarizes, up to an untyped rejection |
| `StartupStream.ForwardKeepsUp` | src/host-executor.ts:290-296 | after every chunk the relay that read all blocks stands at the host's state, up to an untyped rejection |
| `StartupStream.SummariesCarryTheState` | src/host-executor.ts:286-305 | for every chunking of either stream, the relay fed with summaries ends in the state of one fed with the raw output, up to an untyped rejection |
| `StartupStream.SummariesSayTheSameExactly` | src/host-executor.ts:286-305 | the two end in the same state if and only if no untyped rejection stands at the end of the stream, and judge the attempt alike if and only if none stands or work had begun |
| `StartupStream.LaunchIsTypedExactly` | src/index.ts:559-564 | a round learns of a launch only what an observer can report, and learns a typed rejection or none exactly when no untyped one stands at the end of its stream |
| `Conversations.SoundIsReadable` | src/control-state.ts:119-172 | the invariant implies the shape that a reader accepts: bounded titles, presets of the conversation's own client and login, sixteen linked logins at most and all different, existing default and selected presets |
| `Conversations.ContinuesTransitive` | src/control-state.ts:559-651 | losing no conversation, and keeping engines, starts and native sessions, composes over transitions |
| `Conversations.RunContinues` | src/control-state.ts:559-975 | over a whole run of transitions every conversation is still there, with its engine, its start and its native session |
| `Conversations.ConversationStays` | src/control-state.ts:559-975 | one conversation over a whole run: its scope stays, a bound client and login stay, a start is not undone, and the native session of a started one stays what it is |
| `Conversations.NoDuplicate` | src/control-state.ts:590-592 | in a sound state no conversation is there twice |
| `Conversations.RememberedKeeps` | src/control-state.ts:188-192 | remembering the selected preset keeps the invariant and all conversations |
| `Conversations.SwappedKeeps` | src/control-state.ts:590-592 | exchanging the active conversation for a saved one leaves the same conversations |
| `Conversations.LatestKeeps` | src/control-state.ts:593-594 | putting a preset last keeps all other identifiers and their distinctness |
| `Conversations.ReadKeeps` | src/control-state.ts:232-247 | reading normalizes recent choices to existing presets and keeps the rest |
| `Capture.FastPathIsExact` | src/control-state.ts:713-754 | the unlocked guard holds if and only if the locked path would change nothing, and then both return the same choice |
| `Capture.CapturedKeeps` | src/control-state.ts:731-753 | capturing keeps the invariant, loses no conversation and never changes a bound engine |
| `Capture.CapturedMeans` | src/control-state.ts:731-753 | a message opens a new conversation exactly when none is active or the active one has started, with the same client and login, at another provider than the one selected; otherwise the active one stays, unstarted ones follow the selection, and one of the selected engine carries the selected preset |
| `Capture.CaptureSettles` | src/control-state.ts:713-754 | after a capture the same message takes the unlocked path, and a conversation of the selected engine carries the selected preset |
| `Capture.ReadableAfterCaptureExactly` | src/control-state.ts:731-753 | from a readable state capturing writes a readable one if and only if it does not bind the active conversation onto one of its own linked logins |
| `Capture.CaptureCanWriteTheUnreadable` | src/control-state.ts:736-743 | a concrete readable state after which the captured one is unreadable |
| `LinkedLogins.WithLinkKeeps` | src/control-state.ts:853-866 | a new linked login keeps the conversation sound, and the oldest link is lost exactly when there were sixteen |
| `LinkedLogins.NativeSavedKeeps` | src/control-state.ts:868-880 | saving a native session under one login sets it there and leaves every other login's session as it was |
| `LinkedLogins.AttemptSettledKeeps` | src/control-state.ts:885-897 | a started session is never changed; an unstarted one of a client that takes its identifier starts if and only if work began, and otherwise gets a new identifier |
| `LinkedLogins.NoServerNoSession` | src/control-state.ts:853-866 | a login that neither owns the conversation nor is linked to it has no session there |
| `Presets.EvictableExists` | src/control-state.ts:939-945 | at the cap of twelve there is always a saved preset that is not selected, default or recent, and the first such one is evicted |
| `Presets.SavedKeeps` | src/control-state.ts:936-947 | saving keeps the list valid and never removes a selected, default or recent choice, nor any choice while fewer than twelve are saved |
| `Presets.SavedAreFew` | src/control-state.ts:936-947 | however often choices are saved, no more than twelve come to be kept, and a list that is longer already does not grow |
| `Presets.RecentFirstKeeps` | src/control-state.ts:971 | the chosen identifier comes first, without repeats, three at most |
| `Presets.RecentExactly` | src/control-state.ts:971 | the others keep their order, and the third of three falls out exactly when the chosen one is new |
| `Presets.SyncedKeeps` | src/control-state.ts:662-677 | a refresh of discovered presets keeps selected and default identifiers, all discovered ones and the validity of the list; saved choices stay apart exactly when the new discovered ones do |
| `Presets.SyncedMembers` | src/control-state.ts:670-675 | a refresh keeps every preset that was not detected earlier, and the selected and default ones; anything else in the new list was discovered now or is the initial one, and everything discovered is there |
| `Presets.NormalKeeps` | src/control-state.ts:680-711 | binding providers changes presets and conversations without losing one or changing an engine |
| `Presets.ProviderForExactly` | src/control-state.ts:680-692 | a Codex choice with a model and without a provider takes the provider of the one catalog entry that serves it; with none, with several, or for any other choice nothing changes |
| `Control.CurrentIsFound` | src/control-state.ts:194-195 | an application's current conversation is one of the conversations, of that scope and not archived |
| `Control.CurrentExactly` | src/control-state.ts:194-195 | a scope has no current conversation exactly when all of its own are archived; the active one is taken first |
| `Control.PassesExactly` | src/control-state.ts:197-208 | a remote caller passes exactly with a granted authority of the present owner and the conversation it last saw: the active one, or within a scope its own one, which is then neither shared nor active |
| `Control.ActivatedKeeps` | src/control-state.ts:764-774 | sharing an application's conversation makes it the active one and loses none |
| `Control.ResumableExactly` | src/control-state.ts:583-592 | a saved conversation can be resumed exactly when it is not archived, not an unshared application's, has a permitted preset of its client and login, its own or a stored one, and is not a started session of a self-reporting client whose identifier is missing |
| `Control.ResumedMeans` | src/control-state.ts:589-595 | the resumed conversation is active under its preset, the former one is the latest saved, the others keep their order |
| `Control.FiledMeans` | src/control-state.ts:610-617 | a filed conversation is the latest saved one and archived, nothing is active, the default is selected |
| `Control.PickedMeans` | src/control-state.ts:960-971 | the choice is selected and first among the recent; a new conversation is made only when asked for or when there was none, and otherwise the active one takes the choice exactly when it is of that client, login and provider |
| `Control.AsksExactly` | src/control-state.ts:960-961 | the caller is asked exactly when the active conversation is unbound or the choice is of another client, login or provider than the selected one, so exactly when a conversation that stands at the former choice cannot follow |
| `Control.ControlStore.EnsureActiveSession` | src/control-state.ts:545-557 | an active conversation is returned as it is; otherwise a fresh one is saved and nothing else changes |
| `Control.ControlStore.MarkSessionStarted` | src/control-state.ts:559-569 | exactly the named conversation is marked started |
| `Control.ControlStore.SwitchSession` | src/control-state.ts:576-602 | refused exactly when the source refuses; otherwise that conversation is active under its own preset and the former one is saved |
| `Control.ControlStore.ArchiveSession` | src/control-state.ts:604-620 | an active conversation is filed and the default selected; any other only changes its flag |
| `Control.ControlStore.RenameSession` | src/control-state.ts:622-631 | a title of 1 to 80 characters is set on the active conversation, anything else is refused unchanged |
| `Control.ControlStore.ResetSession` | src/control-state.ts:633-651 | a fresh conversation bound to the default choice follows the saved former one |
| `Control.ControlStore.CaptureChoice` | src/control-state.ts:713-754 | whichever path answers, the choice is the locked path's and the state is left as the specification says |
| `Control.ControlStore.CaptureApplicationChoice` | src/control-state.ts:756-790 | refused exactly on a native session or engine conflict; otherwise the scope's conversation and its resolved chain, saved only when shared, requested or new |
| `Control.ControlStore.ChangeApplicationSession` | src/control-state.ts:796-821 | another setup of the same engine is set in place; any other retires the conversation and starts one for the scope |
| `Control.ControlStore.SaveNativeSession` | src/control-state.ts:834-848 | a defined native session identifier is never replaced by another one |
| `Control.ControlStore.EngineSession` | src/control-state.ts:853-866 | the engine's own session, its link, or a new link, and nothing is written in the first two cases |
| `Control.ControlStore.SaveEngineSession` | src/control-state.ts:868-880 | saved exactly when the engine serves the conversation and no other identifier is known |
| `Control.ControlStore.SettleEngineSession` | src/control-state.ts:885-897 | nothing is written for started, unknown or self-reporting engines |
| `Control.ControlStore.AiState` | src/control-state.ts:653-660 | settings are created once from the initial preset and returned |
| `Control.ControlStore.SyncClientPresets` | src/control-state.ts:662-678 | the list becomes the refreshed one of the specification, begun with the first discovered preset of the initial client; the state stays readable and loses no conversation, and saved choices stay apart exactly when the new discovered presets are apart |
| `Control.ControlStore.NormalizeProviderBindings` | src/control-state.ts:680-711 | something is written exactly when some binding changes |
| `Control.ControlStore.SetChatFallbacks` | src/control-state.ts:906-917 | a chain of 1 to 12 distinct, permitted presets or none; anything else is refused unchanged |
| `Control.ControlStore.SavePreset` | src/control-state.ts:928-949 | the preset is saved, evicting at the cap, and the eviction never fails |
| `Control.ControlStore.SelectPreset` | src/control-state.ts:950-975 | refused, asked back or carried out exactly as the source decides, with the conversation, the selection and the recent list of the specification |
| `Control.ControlStore.DefaultChoice` | src/control-state.ts:977-986 | only an existing, permitted preset becomes the default |
| `Control.ControlStore.RecordSetupOutcome` | src/control-state.ts:498-531 | exactly one login's record changes, and after a limit every setup of its scope is blocked past now |
| `Control.ControlStore.ClearQuotaWait` | src/control-state.ts:533-543 | exactly the named records lose their waits and their counts |
| `Control.ControlStore.RevokeOwner` | src/control-state.ts:466-479 | the one transition after which conversations, presets and records are gone |
| `Inbox.SealIsUnique` | src/inbox.ts:72-79 | the rule for sealing the front of the queue allows exactly one batch |
| `Inbox.InOneBatch` | src/inbox.ts:57-84 | no update is in two entries of a log without repeats |
| `Inbox.InboxStore.EveryUpdateOnce` | src/inbox.ts:46-106 | at any time an update was accepted exactly when it waits or is in an entry of the log, and it is in one entry at most and not in both |
| `Inbox.InboxStore.SealedInOrder` | src/inbox.ts:57-84 | without a stop the sealed batches in order, and then the queue, are the accepted updates; batches are coherent and have different identifiers |
| `Inbox.InboxStore.NextIdIsNew` | src/inbox.ts:80 | the next batch gets an identifier under which none was ever sealed |
| `Inbox.InboxStore.RipeExactly` | src/inbox.ts:62-71 | a queue is sealed exactly when it is forced, ten long without an album at its end, quiet for two seconds, or half a minute old |
| `Inbox.InboxStore.Accept` | src/inbox.ts:46-54 | an update is queued last, exactly the first time its identifier arrives |
| `Inbox.InboxStore.Measure` | src/inbox.ts:72-79 | the loops take one chat and one execution choice, ten at most, and the rest of the last album |
| `Inbox.InboxStore.Next` | src/inbox.ts:57-84 | a pending batch is returned unchanged; otherwise a ripe queue is sealed from its front under its first update's identifier, and the rest stays in order |
| `Inbox.InboxStore.Finish` | src/inbox.ts:86-93 | a pending batch is dropped or marked failed, all others stay |
| `Inbox.InboxStore.Cancel` | src/inbox.ts:95-106 | the queue is dropped, pending batches are cancelled, and the count is of exactly these updates |
| `Inbox.PendingAreCounted` | src/inbox.ts:95-106 | what is counted are the entries of the pending batches |
| `Inbox.InboxStore.RetryLatest` | src/inbox.ts:108-132 | the latest failed batch that is wholly the caller's is pending again, nothing else changes |
| `Frames.BytesRoundTrip` | src/desktop-bridge.ts:70-73 | a length written big-endian in k bytes is read back |
| `Frames.XorTwice` | src/desktop-bridge.ts:75 | masking a byte twice with the same mask byte gives it back |
| `Frames.XorIsBitwise` | src/desktop-bridge.ts:75 | a masked byte has a bit set exactly where byte and mask differ |
| `Frames.HighestByteFirst` | src/desktop-bridge.ts:139-146 | lengths are read with the highest byte first |
| `Frames.SendFrame` | src/desktop-bridge.ts:64-77 | the masking loop prints the header, the mask and every payload byte under its mask byte |
| `Frames.ParseIsStable` | src/desktop-bridge.ts:134-153 | bytes that arrive later never change a complete frame |
| `Frames.FrameRoundTrip` | src/desktop-bridge.ts:64-77 | a printed text frame of any length and mask is the masked frame with the narrowest length field, and is parsed back to its payload, whatever follows |
| `Frames.WireRoundTrip` | src/desktop-bridge.ts:134-153 | every frame of either side, masked or not, whatever its opcode and the width of its length, is read back, whatever follows |
| `Frames.ParsesExactly` | src/desktop-bridge.ts:134-153 | a frame is read from bytes if and only if they begin with it |
| `Frames.PongIsReadExactly` | src/desktop-bridge.ts:159-162 | the answer to a ping is read back as sent if and only if the payload is shorter than 126 bytes |
| `Frames.Receiver.Receive` | src/desktop-bridge.ts:133-168 | a chunk yields exactly the events of the reader over the held and the new bytes, and holds the rest |
| `Frames.ReadStopsAtClose` | src/desktop-bridge.ts:155-158 | a run of the reader handles every complete frame unless it ends with a close |
| `Frames.ChunksDoNotMatter` | src/desktop-bridge.ts:168 | a stream that says nothing after a close yields the same events however it is cut |
| `Frames.CutBehindTheClose` | src/desktop-bridge.ts:155-158 | a stream that does say something after a close can be cut so that the events differ |
| `Frames.ChunkingIsInvisibleExactly` | src/desktop-bridge.ts:133-168 | chunking is invisible if and only if no meaningful frame follows a close |
| `Frames.FramesArrive` | src/desktop-bridge.ts:133-168 | any list of frames, masked or not, is handled in order however its bytes are cut, texts delivered, pings answered with their payload and other opcodes passed over, if and only if nothing is said behind a close |
| `Frames.TextsArrive` | src/desktop-bridge.ts:163-164 | a list of texts arrives whole and in order |
| `Delivery.StepKeeps` | src/tasks.ts:590-639 | every step of worker, source and run, stops included, keeps the delivery invariant |
| `Delivery.CalledAtMostOnce` | src/tasks.ts:622-639 | whatever stops and whenever, the provider is called at most once for a send key |
| `Delivery.AcceptedWasSent` | src/tasks.ts:617-636 | in every reachable state whatever is known as accepted, by the worker or by the source, had its one call of the provider, and every call is of a key that was marked before |
| `Delivery.ReceiptsMoveForward` | src/telegram-source.ts:99-114 | a receipt begins uncertain before the call, becomes accepted behind it, never goes back, and is forgotten only when accepted |
| `Delivery.OperationsMoveForward` | src/tasks.ts:612-639 | an operation only goes from absent to uncertain to accepted, and is forgotten only when accepted and its run has ended |
| `Delivery.OperationsAreFew` | src/tasks.ts:612-616 | over any run of steps no run of work gets more than thirty operations that count for it |
| `Delivery.RoomExactly` | src/tasks.ts:612-616 | a running run has room for another send exactly while fewer than thirty count for it |
| `Delivery.TaskWorker.CallProvider` | src/telegram-source.ts:99-114 | the source calls the provider once and keeps an accepted or uncertain receipt, whichever moment it dies at |
| `Delivery.TaskWorker.Provide` | src/telegram-source.ts:101-114 | a kept receipt answers without another call |
| `Delivery.TaskWorker.Send` | src/tasks.ts:590-639 | a known key answers what is known or is refused for another message; a new one is refused without preparation or when thirty are kept, and otherwise is marked first and accepted on a faultless path |
| `Budget.HourMeetsTwoWindows` | src/tasks.ts:407 | the admissions of any hour lie in at most two windows |
| `Budget.AnyHourIsBounded` | src/tasks.ts:407-410 | when each window admits at most hourly, any hour admits at most twice as many |
| `Budget.TwiceIsReached` | src/tasks.ts:407-410 | the bound of twice the hourly limit is met by a concrete run |
| `Budget.TaskGrant.WindowLastsAnHour` | src/tasks.ts:407 | a window stands for an hour; the first look behind its end opens the next one with nothing counted, and the totals stay |
| `Budget.TaskGrant.ApplicationEvent` | src/tasks.ts:389-416 | the verdict is the specified one; an admitted event is recorded once with its window, anything else changes no budget |
| `Budget.TaskGrant.AdmittedExactly` | src/tasks.ts:396-410 | an event is admitted if and only if it is new, the grant stands, and the total, the window and the outstanding limit leave room |
| `Budget.TaskGrant.JudgedExactly` | src/tasks.ts:389-410 | what is not admitted is a duplicate exactly when it is known, refused exactly when the grant is over or used up, and put off exactly when its window or the outstanding runs are full |
| `Budget.TaskGrant.Reply` | src/tasks.ts:567-581 | a reply is queued exactly while none under its key was saved, the run lives, and window, total and the thirty of the run leave room, and it is counted and remembered exactly when the save succeeds |
| `Budget.TaskGrant.MayReplyExactly` | src/tasks.ts:571-576 | a reply may be queued exactly while the grant stands, the run lives, and window, total and the thirty of the run leave room for saved replies |
| `Budget.TaskGrant.QueuedAgainExactly` | src/tasks.ts:569-580 | what is remembered decides like what was saved: a reply that may go out is queued, for the first time or again, exactly when no save under its key succeeded |
| `Budget.TaskGrant.TimesExactly` | src/tasks.ts:577-580 | a reply went out once for each save that failed behind it, and once more when one succeeded |
| `Budget.TaskGrant.QueuedBeyondTheBudget` | src/tasks.ts:577-580 | the replies that went out are those the budget counts and one for each failed save |
| `Budget.TaskGrant.GrantHolds` | src/tasks.ts:384-417 | admitted events are distinct and within the total, outstanding runs within their limit, saved replies within the total, and either in any hour within twice the hourly limit |
| `Sources.PageFits` | src/telegram-source.ts:83-85 | a page of stored events holds all events from the last batch's cursor to its own, but for those deleted before |
| `Sources.PageIsFull` | src/telegram-source.ts:83-85 | a page has ten events at most, and fewer only when there are no more |
| `Sources.RunsAreConversations` | src/index.ts:668-693 | every run is for all messages of one conversation in one batch, one at least |
| `Sources.StepKeeps` | src/event-sources.ts:81-100 | every step of source and relay, stops and releases included, keeps the invariant |
| `Sources.PassedEventsHaveRuns` | src/index.ts:666-696 | wherever anything stopped, the cursor passes an event only when the run of its conversation exists, or when it was deleted before a batch held it and its message had a run; the latter never without a capture after a release |
| `Sources.InOneBatch` | src/event-sources.ts:81-100 | no stored event is in two batches |
| `Sources.OnceUnlessCapturedAgain` | src/telegram-source.ts:59-75 | a message that is not captured after one of its runs was released is stored once and never deleted before a batch held it |
| `Sources.TwoRunsExactly` | src/event-sources.ts:117-118 | however often a batch is replayed, a message is given to two runs if and only if it is in two batches whose lists of its conversation differ, and the later one, while pending, has got its run; never unless it was captured again after its release |
| `Sources.RedeliveryGivesTwoRuns` | src/telegram-source.ts:59-75 | a run in which a released message is delivered again, together with another, and is given to two runs |
| `Sources.SourceRelay.Capture` | src/telegram-source.ts:52-67 | a message that is not stored now is stored with the next cursor; a stop between cursor and event loses only that message |
| `Sources.SourceRelay.CreateRuns` | src/index.ts:668-693 | new runs are of admitted conversations of the batch at hand, and all of them exist when none was put off |
| `Sources.SourceRelay.Drain` | src/index.ts:660-697 | one pass, stopped after any number of writes, advances and clears the batch only when all its runs exist |
| `Slots.StartFindsNoPlace` | src/index.ts:220-256 | a queued run that may start holds no place already |
| `Slots.StepKeeps` | src/index.ts:216-305 | every section of the lock and every exit of a client keeps places and watched clients in step, launches that fail before or after the client took its place included |
| `Slots.StartsExactly` | src/index.ts:220-256 | in every reachable state under the start lock a queued run may start exactly when a place is really free: fewer watched background clients than the limit, or no watched foreground client |
| `Slots.PhasesExactly` | src/index.ts:538-588 | a client ends by its own exit only; a watched one is settled once and goes on at most once |
| `Slots.FailedLaunchMeans` | src/index.ts:259-285 | a failed launch queues scheduled work again when it is told to, ends any other, frees the place and changes no other run |
| `Slots.PlacesAreBounded` | src/index.ts:493-590 | at most one watched client in the foreground, at most the configured number in the background, in all no more beyond it than launches left behind, and an advancing run keeps its place between two sections |
| `Slots.LimitHoldsExactly` | src/index.ts:493-495 | where no launch leaves its client behind, the background limit holds in every run if and only if retries are made inside the lock, or there is one place only |
| `Slots.LeftClientsComeOnTop` | src/index.ts:493-503 | with so many clients left behind, at most the limit and that many live in the background, and some run of steps reaches exactly that |
| `Slots.Relay.StartJob` | src/index.ts:215-285 | a run starts exactly when it is queued and its kind has a free place, and is placed, given up or left behind as its launch goes |
| `Slots.Relay.Complete` | src/index.ts:538-574 | a closed client is settled: an advancing run keeps its place, any other frees it |
| `Slots.Relay.AdvanceRun` | src/index.ts:578-588 | the next setup takes the kept place, or the run ends and frees it |
| `Telemetry.TotalsAreSumsExactly` | src/run-telemetry.ts:131-147 | the totals are the sums over the names if and only if no tool has a name that every object knows already |
| `Telemetry.NamesAreBounded` | src/run-telemetry.ts:135-136 | at most 33 names, the last of them standing for all others |
| `Telemetry.CallsCount` | src/run-telemetry.ts:137-146 | a call counts once, as completed when it ended, as an error when it failed, with the time between its start and its end |
| `Telemetry.ToolObserver.Start` | src/run-telemetry.ts:72-75 | a call is recorded at its first start only |
| `Telemetry.ToolObserver.End` | src/run-telemetry.ts:76-82 | a call ends once; an end without a start is recorded too |
| `Telemetry.ToolObserver.Result` | src/run-telemetry.ts:131-147 | the loop computes the specified table and totals, one call each |
| `CodexSession.ZeroIsCleanExactly` | src/codex-session.ts:42-103 | the message that ends a session with zero leaves no active turn and no unfinished goal if and only if it is no reply, or the reply is still the last word on the goal, or the last word is that it is complete |
| `CodexSession.EndsExactly` | src/codex-session.ts:42-99 | which messages end a session with 0, with 1 and with 130 |
| `CodexSession.ActiveExactly` | src/codex-session.ts:80-103 | a turn is active exactly when it was the last to start and has not ended since |
| `CodexSession.AskedOnce` | src/codex-session.ts:87-103 | every completed turn asks for the goal once, and every reply is to one question and settled once |
| `CodexSession.SessionWithoutGoalEnds` | src/codex-session.ts:42-103 | a session that never had a goal ends with zero behind its completed turn |
| `CodexSession.PromptSessionsAreDone` | src/codex-session.ts:42-52 | in a session whose replies are each settled before anything else is handled, an exit with zero comes behind a seen turn, with none active and no goal left |
| `CodexSession.LateReplyEndsAGoal` | src/codex-session.ts:103 | a reply settled after a newer word on the goal ends the session while that goal is pursued |
| `CodexSession.ZeroMeansDoneExactly` | src/codex-session.ts:42-103 | the same for whole sessions: one that exits with zero is done if and only if its last message settled the last word |
| `CodexSession.Session.Settle` | src/codex-session.ts:42-52 | settling a goal gives exactly the specified exit, once |
| `CodexSession.Session.Receive` | src/codex-session.ts:80-104 | each message changes turn, goal and exit exactly as specified |

## Left out

- `ScheduleTime.NextOccurrence`: takes a parsed trigger; the texts of timestamps, zone names and cron fields are not parsed, and seconds of a wall time are dropped as the source drops them.
- `StartupStream.StartupObserver.Write`: a reset time in seconds is not checked against the range of dates, and output arrives as decoded text.
- `Delivery.TaskWorker.Send`: whether a file or a recording can be prepared is a parameter; a run that has ended is taken never to be running again.
- `Telemetry.TotalsAreSumsExactly`: the names that every object knows are a fixed set; a tool called `__proto__` adds the counters' own names to it, for all later counts of the process.
- `Inbox.InboxStore.RetryLatest`: who owns a message is a parameter.
- `AttemptRound.SetupRound.Run`: the launched process is an outcome; session identifiers, continuation notes and telemetry of an attempt are left out.
- Removing and recreating a schedule, owner and delivery bindings of a schedule, script schedules, and the recovery of interrupted runs at start.
- Public tasks of any conversation (src/tasks.ts:221-230) have the same windows as granted ones, counted per batch, and are not modelled a second time.
- Pairing and linking of owners, the run-telemetry switch and listing of conversations: transitions that touch no conversation, preset or record.
- Patterns of identifiers, titles and names, redaction, menus and texts: string matching without state.
- The stale-lock break after thirty seconds, handing runs over to another relay, adoption of running clients and ledger loss on restart: they rest on wall-clock and process assumptions.
- Caps on the run ledger and its pruning, outbox claims, and attachments.
- Workspace lanes and leases of the host executor, the closure of descendants in process termination, telemetry of models, tokens and errors, the check of a forwarded telemetry summary.
- WebSocket handshake, control-frame payload limits and fragmentation.
