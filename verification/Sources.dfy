/**
 * Messages become events of a source, events become batches, and each conversation of a batch
 * becomes one run. The source and the relay keep their progress on disk and may stop at any point.
 */
module Sources {
  import opened Options
  import opened Sequences

  datatype Event = Event(id: string, conversation: string, cursor: nat)

  datatype Batch = Batch(events: seq<Event>, cursor: nat)

  /** A run is known by the events it was made for; distinct lists hash to distinct names. */
  type RunId = seq<string>

  function Ids(events: seq<Event>): RunId {
    seq(|events|, i requires 0 <= i < |events| => events[i].id)
  }

  function OfConversation(events: seq<Event>, conversation: string): seq<Event> {
    Filter(events, (e: Event) => e.conversation == conversation)
  }

  function RunOf(b: Batch, conversation: string): RunId {
    Ids(OfConversation(b.events, conversation))
  }

  predicate Speaks(b: Batch, conversation: string) {
    exists e :: e in b.events && e.conversation == conversation
  }

  predicate RunsMade(runs: set<RunId>, b: Batch) {
    forall e :: e in b.events ==> RunOf(b, e.conversation) in runs
  }

  function Beyond(events: seq<Event>, lo: nat): seq<Event> {
    Filter(events, (e: Event) => e.cursor > lo)
  }

  const MOST := 10

  /** The first events beyond a cursor, and the cursor of the last of them. */
  function Page(events: seq<Event>, after: nat): Batch {
    var beyond := Beyond(events, after);
    var page := if |beyond| <= MOST then beyond else beyond[..MOST];
    Batch(page, if page == [] then after else page[|page| - 1].cursor)
  }

  /**
   * On disk: the source's `cursor` and `stored` events, the relay's cursor `after`, its `pending` batch
   * and the `runs`. In memory: the event being captured and the batch at hand. `ever` and `batches` are
   * what was ever stored and remembered, `dropped` what a release deleted before a batch held it.
   */
  datatype System = System(cursor: nat, capturing: Option<Event>, stored: seq<Event>, after: nat, pending: Option<Batch>,
                           fetched: Option<Batch>, runs: set<RunId>, ever: seq<Event>, batches: seq<Batch>, dropped: set<Event>)

  datatype Step = CaptureBegins(id: string, conversation: string)
                | CaptureEnds
                | SourceStops
                | Fetch
                | Remember
                | CreateRun(of: string)
                | Advance
                | Clear
                | RelayStops
                | Release(run: RunId)

  predicate Known(events: seq<Event>, id: string) {
    exists e :: e in events && e.id == id
  }

  predicate Enabled(s: System, step: Step) {
    match step
    case CaptureBegins(id, _) => s.capturing.None? && !Known(s.stored, id)
    case CaptureEnds => s.capturing.Some?
    case SourceStops => true
    case Fetch => s.capturing.None? && s.fetched.None?
    case Remember => s.fetched.Some?
    case CreateRun(conversation) => s.fetched.Some? && s.pending == s.fetched && Speaks(s.fetched.value, conversation)
    case Advance => s.fetched.Some? && s.pending == s.fetched && RunsMade(s.runs, s.fetched.value)
    case Clear => s.fetched.Some? && s.pending == s.fetched && s.after == s.fetched.value.cursor
    case RelayStops => true
    case Release(run) => s.capturing.None? && run in s.runs
  }

  function Apply(s: System, step: Step): System
    requires Enabled(s, step)
  {
    match step
    case CaptureBegins(id, conversation) => s.(cursor := s.cursor + 1, capturing := Some(Event(id, conversation, s.cursor + 1)))
    case CaptureEnds => s.(capturing := None, stored := s.stored + [s.capturing.value], ever := s.ever + [s.capturing.value])
    case SourceStops => s.(capturing := None)
    case Fetch => s.(fetched := Some(if s.pending.Some? then s.pending.value else Page(s.stored, s.after)))
    case Remember => if s.pending.Some? then s else s.(pending := s.fetched, batches := s.batches + [s.fetched.value])
    case CreateRun(conversation) => s.(runs := s.runs + {RunOf(s.fetched.value, conversation)})
    case Advance => s.(after := s.fetched.value.cursor)
    case Clear => s.(pending := None, fetched := None)
    case RelayStops => s.(fetched := None)
    case Release(run) =>
      s.(stored := Filter(s.stored, (e: Event) => e.id !in run),
         dropped := s.dropped + set e | e in s.stored && e.id in run && e.cursor > LastCursor(s.batches))
  }

  const START := System(0, None, [], 0, None, None, {}, [], [], {})

  predicate Runs(s: System, steps: seq<Step>, t: System)
    decreases |steps|
  {
    if steps == [] then s == t else Enabled(s, steps[0]) && Runs(Apply(s, steps[0]), steps[1..], t)
  }

  // ---------------------------------------------------------------- what is kept

  /** Events in the order of their cursors. */
  ghost predicate Ordered(events: seq<Event>, last: nat) {
    && (forall i :: 0 <= i < |events| ==> 0 < events[i].cursor <= last)
    && (forall i, j :: 0 <= i < j < |events| ==> events[i].cursor < events[j].cursor)
  }

  /** Events in the order of their cursors, each message once. */
  ghost predicate Neat(events: seq<Event>, last: nat) {
    Ordered(events, last) && forall i, j :: 0 <= i < j < |events| ==> events[i].id != events[j].id
  }

  function LastCursor(batches: seq<Batch>): nat {
    if batches == [] then 0 else batches[|batches| - 1].cursor
  }

  ghost predicate Within(events: seq<Event>, ever: seq<Event>, lo: nat, hi: nat) {
    forall e :: e in events ==> e in ever && lo < e.cursor <= hi
  }

  /** A batch holds all events from one cursor up to its own, but for those deleted before. */
  ghost predicate Fits(s: System, lo: nat, b: Batch) {
    && lo <= b.cursor <= s.cursor && Neat(b.events, b.cursor) && Within(b.events, s.ever, lo, b.cursor)
    && forall e :: e in s.ever && lo < e.cursor <= b.cursor ==> e in b.events || e in s.dropped
  }

  ghost predicate Chained(s: System, batches: seq<Batch>) {
    batches == [] || (Chained(s, batches[..|batches| - 1]) && Fits(s, LastCursor(batches[..|batches| - 1]), batches[|batches| - 1]))
  }

  /** The message is among those some run was made for. */
  ghost predicate Served(runs: set<RunId>, id: string) {
    exists r :: r in runs && id in r
  }

  ghost predicate SourceSound(s: System) {
    && Ordered(s.ever, s.cursor) && Neat(s.stored, s.cursor) && (forall e :: e in s.stored ==> e in s.ever)
    && (s.capturing.Some? ==> s.capturing.value.cursor == s.cursor > 0 && !Known(s.stored, s.capturing.value.id)
                              && LastCursor(s.batches) < s.cursor && forall e :: e in s.ever ==> e.cursor < s.cursor)
    && LastCursor(s.batches) <= s.cursor
    && (forall e :: e in s.ever && e.cursor > LastCursor(s.batches) ==> e in s.stored || e in s.dropped)
    && (forall e :: e in s.dropped ==> Served(s.runs, e.id))
  }

  /** The cursor stands at the last batch, or at the one before while that is pending. */
  predicate AtTheEnd(s: System) {
    if s.pending.Some? then
      && s.batches != [] && s.batches[|s.batches| - 1] == s.pending.value
      && (s.after == LastCursor(s.batches) || s.after == LastCursor(s.batches[..|s.batches| - 1]))
    else s.after == LastCursor(s.batches)
  }

  /** The run is of one conversation of one batch. */
  ghost predicate MadeFor(batches: seq<Batch>, r: RunId) {
    exists i, e :: 0 <= i < |batches| && e in batches[i].events && r == RunOf(batches[i], e.conversation)
  }

  ghost predicate RunsSound(s: System) {
    && (forall b :: b in s.batches && b.cursor <= s.after ==> RunsMade(s.runs, b))
    && (forall r :: r in s.runs ==> MadeFor(s.batches, r))
  }

  ghost predicate FetchedSound(s: System) {
    s.fetched.Some? ==>
      || s.pending == s.fetched
      || (s.pending.None? && Fits(s, LastCursor(s.batches), s.fetched.value)
          && (s.capturing.Some? ==> s.fetched.value.cursor < s.cursor))
  }

  ghost predicate RelaySound(s: System) {
    Chained(s, s.batches) && AtTheEnd(s) && FetchedSound(s)
  }

  ghost predicate Inv(s: System) {
    SourceSound(s) && RelaySound(s) && RunsSound(s)
  }

  // ---------------------------------------------------------------- facts about pages and batches

  ghost predicate Before(head: Event, rest: seq<Event>, last: nat) {
    0 < head.cursor <= last && forall e :: e in rest ==> head.cursor < e.cursor && head.id != e.id
  }

  lemma NeatCons(head: Event, rest: seq<Event>, last: nat)
    requires Neat(rest, last) && Before(head, rest, last)
    ensures Neat([head] + rest, last)
  {
  }

  lemma NeatTail(head: Event, rest: seq<Event>, last: nat)
    requires Neat([head] + rest, last)
    ensures Neat(rest, last) && Before(head, rest, last)
  {
    var all := [head] + rest;
    assert all[0] == head;
    forall i | 0 <= i < |rest| ensures rest[i] == all[i + 1] && head.cursor < rest[i].cursor && head.id != rest[i].id {}
    forall i, j | 0 <= i < j < |rest| ensures rest[i].cursor < rest[j].cursor && rest[i].id != rest[j].id {
      assert all[i + 1] == rest[i] && all[j + 1] == rest[j];
    }
  }

  lemma {:induction false} FilterIsNeat(events: seq<Event>, last: nat, keep: Event -> bool)
    requires Neat(events, last)
    ensures Neat(Filter(events, keep), last)
  {
    if events != [] {
      assert events == [events[0]] + events[1..];
      NeatTail(events[0], events[1..], last);
      FilterIsNeat(events[1..], last, keep);
      FilterMembers(events[1..], keep);
      NeatCons(events[0], Filter(events[1..], keep), last);
    }
  }

  /** A later event, and further deletions, leave a batch as fitting as it was. */
  lemma FitsLater(s: System, t: System, lo: nat, b: Batch)
    requires Fits(s, lo, b) && s.cursor <= t.cursor && s.dropped <= t.dropped && s.ever <= t.ever
    requires forall i :: |s.ever| <= i < |t.ever| ==> t.ever[i].cursor > b.cursor
    ensures Fits(t, lo, b)
  {
    forall e | e in t.ever && lo < e.cursor <= b.cursor ensures e in b.events || e in t.dropped {
      var i :| 0 <= i < |t.ever| && t.ever[i] == e;
      assert i < |s.ever| && s.ever[i] == e;
    }
    assert forall e :: e in s.ever ==> e in t.ever;
  }

  lemma {:induction false} ChainedLater(s: System, t: System, batches: seq<Batch>)
    requires Chained(s, batches) && s.cursor <= t.cursor && s.dropped <= t.dropped && s.ever <= t.ever
    requires forall i :: |s.ever| <= i < |t.ever| ==> t.ever[i].cursor > LastCursor(batches)
    ensures Chained(t, batches)
  {
    if batches != [] {
      ChainedLater(s, t, batches[..|batches| - 1]);
      FitsLater(s, t, LastCursor(batches[..|batches| - 1]), batches[|batches| - 1]);
    }
  }

  lemma BeyondIsNeat(s: System, lo: nat)
    requires SourceSound(s)
    ensures Neat(Beyond(s.stored, lo), s.cursor) && forall e :: e in Beyond(s.stored, lo) <==> e in s.stored && e.cursor > lo
  {
    FilterIsNeat(s.stored, s.cursor, (e: Event) => e.cursor > lo);
    FilterMembers(s.stored, (e: Event) => e.cursor > lo);
  }

  /** A prefix of ordered events holds all of them up to its last one. */
  lemma PrefixHoldsAll(events: seq<Event>, last: nat, n: nat, e: Event)
    requires Neat(events, last) && 0 < n <= |events| && e in events && e.cursor <= events[n - 1].cursor
    ensures e in events[..n]
  {
    var k :| 0 <= k < |events| && events[k] == e;
    assert k < n;
    assert events[..n][k] == e;
  }

  /** A page has ten events at most, and fewer only when there are no more. */
  lemma PageIsFull(events: seq<Event>, after: nat)
    ensures |Page(events, after).events| <= 10
    ensures |Page(events, after).events| < 10 ==> forall e :: e in events && e.cursor > after ==> e in Page(events, after).events
  {
    FilterMembers(events, (e: Event) => e.cursor > after);
  }

  /** A page of the stored events fits behind the last batch. */
  lemma PageFits(s: System)
    requires SourceSound(s)
    ensures Fits(s, LastCursor(s.batches), Page(s.stored, LastCursor(s.batches)))
  {
    var lo := LastCursor(s.batches);
    var beyond, b := Beyond(s.stored, lo), Page(s.stored, lo);
    BeyondIsNeat(s, lo);
    PrefixIsNeat(beyond, s.cursor, |b.events|);
    assert b.events == beyond[..|b.events|];
    forall e | e in s.ever && lo < e.cursor <= b.cursor ensures e in b.events || e in s.dropped {
      if e in s.stored {
        PrefixHoldsAll(beyond, s.cursor, |b.events|, e);
      }
    }
    PageIsWithin(s, beyond, |b.events|, lo);
  }

  lemma PageIsWithin(s: System, beyond: seq<Event>, n: nat, lo: nat)
    requires SourceSound(s) && Neat(beyond, s.cursor) && n <= |beyond| && forall e :: e in beyond ==> e in s.stored && e.cursor > lo
    ensures Within(beyond[..n], s.ever, lo, if n == 0 then lo else beyond[n - 1].cursor)
    ensures n > 0 ==> lo <= beyond[n - 1].cursor <= s.cursor
  {
    assert forall i :: 0 <= i < n ==> beyond[..n][i] == beyond[i] && beyond[i] in beyond;
  }

  lemma PrefixIsNeat(events: seq<Event>, last: nat, n: nat)
    requires Neat(events, last) && n <= |events|
    ensures Neat(events[..n], if n == 0 then 0 else events[n - 1].cursor)
  {
  }

  lemma {:induction false} FoundInBatch(s: System, batches: seq<Batch>, e: Event)
    requires Chained(s, batches) && e in s.ever && 0 < e.cursor <= LastCursor(batches) && e !in s.dropped
    ensures exists i :: 0 <= i < |batches| && e in batches[i].events && LastCursor(batches[..i]) < e.cursor <= batches[i].cursor
  {
    var init, last := batches[..|batches| - 1], batches[|batches| - 1];
    if e.cursor <= LastCursor(init) {
      FoundInBatch(s, init, e);
      var i :| 0 <= i < |init| && e in init[i].events && LastCursor(init[..i]) < e.cursor <= init[i].cursor;
      assert init[..i] == batches[..i] && init[i] == batches[i];
    }
  }

  /** A batch lies between the cursor of the one before it and its own. */
  lemma {:induction false} BatchLies(s: System, batches: seq<Batch>, i: nat)
    requires Chained(s, batches) && i < |batches|
    ensures Within(batches[i].events, s.ever, LastCursor(batches[..i]), batches[i].cursor)
            && Neat(batches[i].events, batches[i].cursor)
    ensures LastCursor(batches[..i]) <= batches[i].cursor <= LastCursor(batches)
  {
    if i < |batches| - 1 {
      BatchLies(s, batches[..|batches| - 1], i);
      assert batches[..|batches| - 1][..i] == batches[..i];
    }
  }

  /** Cursors of batches never go back. */
  lemma CursorsRise(s: System, batches: seq<Batch>, i: nat, j: nat)
    requires Chained(s, batches) && i < j < |batches|
    ensures batches[i].cursor <= LastCursor(batches[..j])
  {
    ChainedPrefix(s, batches, j);
    BatchLies(s, batches[..j], i);
  }

  lemma {:induction false} ChainedPrefix(s: System, batches: seq<Batch>, j: nat)
    requires Chained(s, batches) && j <= |batches|
    ensures Chained(s, batches[..j])
  {
    if j == |batches| {
      assert batches[..j] == batches;
    } else {
      ChainedPrefix(s, batches[..|batches| - 1], j);
      assert batches[..|batches| - 1][..j] == batches[..j];
    }
  }

  // ---------------------------------------------------------------- every step keeps it

  lemma BeginKeeps(s: System, id: string, conversation: string)
    requires Inv(s) && Enabled(s, CaptureBegins(id, conversation))
    ensures Inv(Apply(s, CaptureBegins(id, conversation)))
  {
    var t := Apply(s, CaptureBegins(id, conversation));
    ChainedLater(s, t, s.batches);
    if s.fetched.Some? && s.pending != s.fetched {
      FitsLater(s, t, LastCursor(s.batches), s.fetched.value);
    }
  }

  lemma OneMoreOrdered(events: seq<Event>, e: Event, last: nat)
    requires Ordered(events, last) && 0 < e.cursor <= last && forall x :: x in events ==> x.cursor < e.cursor
    ensures Ordered(events + [e], last)
    ensures Neat(events, last) && !Known(events, e.id) ==> Neat(events + [e], last)
  {
    var all := events + [e];
    assert forall i :: 0 <= i < |events| ==> all[i] == events[i] && events[i] in events;
    assert all[|events|] == e;
  }

  lemma CaptureKeepsSource(s: System)
    requires SourceSound(s) && s.capturing.Some?
    ensures SourceSound(Apply(s, CaptureEnds))
  {
    OneMoreOrdered(s.ever, s.capturing.value, s.cursor);
    OneMoreOrdered(s.stored, s.capturing.value, s.cursor);
  }

  lemma CaptureKeeps(s: System)
    requires Inv(s) && s.capturing.Some?
    ensures Inv(Apply(s, CaptureEnds))
  {
    var t := Apply(s, CaptureEnds);
    CaptureKeepsSource(s);
    ChainedLater(s, t, s.batches);
    if s.fetched.Some? && s.pending != s.fetched {
      FitsLater(s, t, LastCursor(s.batches), s.fetched.value);
    }
  }

  lemma FetchKeeps(s: System)
    requires Inv(s) && Enabled(s, Fetch)
    ensures Inv(Apply(s, Fetch))
  {
    ChainedLater(s, Apply(s, Fetch), s.batches);
    if s.pending.None? {
      PageFits(s);
      FitsLater(s, Apply(s, Fetch), LastCursor(s.batches), Page(s.stored, s.after));
    }
  }

  lemma RememberKeeps(s: System)
    requires Inv(s) && s.fetched.Some? && s.pending.None?
    ensures Inv(Apply(s, Remember))
  {
    var b, lo, t := s.fetched.value, LastCursor(s.batches), Apply(s, Remember);
    assert t.batches[..|s.batches|] == s.batches;
    ChainedLater(s, t, s.batches);
    FitsLater(s, t, lo, b);
    assert forall e :: e in b.events ==> b.cursor > lo;
    forall r | r in t.runs ensures MadeFor(t.batches, r) {
      MadeForMore(s.batches, b, r);
    }
  }

  lemma MadeForMore(batches: seq<Batch>, b: Batch, r: RunId)
    requires MadeFor(batches, r)
    ensures MadeFor(batches + [b], r)
  {
    var i, e :| 0 <= i < |batches| && e in batches[i].events && r == RunOf(batches[i], e.conversation);
    assert (batches + [b])[i] == batches[i];
  }

  /** All batches but the last are behind the relay's cursor. */
  lemma EarlierIsPassed(s: System, i: nat)
    requires RelaySound(s) && i < |s.batches| - 1
    ensures s.batches[i].cursor <= s.after
  {
    CursorsRise(s, s.batches, i, |s.batches| - 1);
    BatchLies(s, s.batches, |s.batches| - 1);
  }

  lemma AllRunsMade(s: System)
    requires RelaySound(s) && RunsSound(s) && Enabled(s, Advance)
    ensures forall b :: b in s.batches ==> RunsMade(s.runs, b)
  {
    forall i | 0 <= i < |s.batches| ensures RunsMade(s.runs, s.batches[i]) {
      if i < |s.batches| - 1 {
        EarlierIsPassed(s, i);
        assert s.batches[i] in s.batches;
      }
    }
  }

  lemma AdvanceKeeps(s: System)
    requires Inv(s) && Enabled(s, Advance)
    ensures Inv(Apply(s, Advance))
  {
    AllRunsMade(s);
    ChainedLater(s, Apply(s, Advance), s.batches);
  }

  lemma CreateKeeps(s: System, conversation: string)
    requires Inv(s) && Enabled(s, CreateRun(conversation))
    ensures Inv(Apply(s, CreateRun(conversation)))
  {
    var t := Apply(s, CreateRun(conversation));
    ChainedLater(s, t, s.batches);
    assert s.batches[|s.batches| - 1] == s.pending.value;
    assert MadeFor(s.batches, RunOf(s.pending.value, conversation));
    forall e | e in t.dropped ensures Served(t.runs, e.id) {
      assert Served(s.runs, e.id);
      var r :| r in s.runs && e.id in r;
      assert r in t.runs;
    }
  }

  lemma ReleaseKeepsSource(s: System, run: RunId)
    requires SourceSound(s) && Enabled(s, Release(run))
    ensures SourceSound(Apply(s, Release(run)))
  {
    FilterIsNeat(s.stored, s.cursor, (e: Event) => e.id !in run);
    FilterMembers(s.stored, (e: Event) => e.id !in run);
  }

  lemma ReleaseKeeps(s: System, run: RunId)
    requires Inv(s) && Enabled(s, Release(run))
    ensures Inv(Apply(s, Release(run)))
  {
    var t := Apply(s, Release(run));
    ReleaseKeepsSource(s, run);
    ChainedLater(s, t, s.batches);
    if s.fetched.Some? && s.pending != s.fetched {
      FitsLater(s, t, LastCursor(s.batches), s.fetched.value);
    }
  }

  /** The relay's memory and its pending batch are no concern of the source. */
  lemma MemoryKeeps(s: System, t: System)
    requires Inv(s) && t == s.(capturing := None, fetched := t.fetched, pending := t.pending) && AtTheEnd(t)
             && (t.fetched.Some? ==> t.fetched == s.fetched && t.pending == s.pending)
    ensures Inv(t)
  {
    ChainedLater(s, t, s.batches);
    if s.fetched.Some? && s.pending != s.fetched {
      FitsLater(s, t, LastCursor(s.batches), s.fetched.value);
    }
  }

  lemma StepKeeps(s: System, step: Step)
    requires Inv(s) && Enabled(s, step)
    ensures Inv(Apply(s, step))
  {
    match step
    case CaptureBegins(id, conversation) => BeginKeeps(s, id, conversation);
    case CaptureEnds => CaptureKeeps(s);
    case SourceStops => MemoryKeeps(s, Apply(s, step));
    case Fetch => FetchKeeps(s);
    case Remember => if s.pending.None? { RememberKeeps(s); }
    case CreateRun(conversation) => CreateKeeps(s, conversation);
    case Advance => AdvanceKeeps(s);
    case Clear => ClearKeeps(s);
    case RelayStops => ClearKeeps(s);
    case Release(run) => ReleaseKeeps(s, run);
  }

  lemma ClearKeeps(s: System)
    requires Inv(s)
    ensures Inv(s.(fetched := None))
    ensures Enabled(s, Clear) ==> Inv(s.(fetched := None, pending := None))
  {
    ChainedLater(s, s.(fetched := None), s.batches);
    ChainedLater(s, s.(fetched := None, pending := None), s.batches);
  }

  lemma {:induction false} RunKeeps(s: System, steps: seq<Step>, t: System)
    requires Inv(s) && Runs(s, steps, t)
    ensures Inv(t)
    decreases |steps|
  {
    if steps != [] {
      StepKeeps(s, steps[0]);
      RunKeeps(Apply(s, steps[0]), steps[1..], t);
    }
  }

  // ---------------------------------------------------------------- what the relay promises

  /** Where in the batches an event stands that the relay's cursor has passed. */
  lemma PassedIndex(s: System, e: Event) returns (i: nat)
    requires SourceSound(s) && RelaySound(s) && e in s.ever && e.cursor <= s.after && e !in s.dropped
    ensures i < |s.batches| && e in s.batches[i].events && s.batches[i].cursor <= s.after
  {
    if s.batches != [] {
      BatchLies(s, s.batches, |s.batches| - 1);
    }
    FoundInBatch(s, s.batches, e);
    i :| 0 <= i < |s.batches| && e in s.batches[i].events && LastCursor(s.batches[..i]) < e.cursor <= s.batches[i].cursor;
    if i < |s.batches| - 1 {
      EarlierIsPassed(s, i);
    }
  }

  /**
   * Wherever anything stopped: the cursor passes an event only when the run of its conversation
   * exists; an event deleted before a batch held it is of a message that was given to a run before.
   */
  lemma PassedEventsHaveRuns(steps: seq<Step>, s: System, e: Event)
    requires Runs(START, steps, s) && e in s.ever && e.cursor <= s.after
    ensures (exists b :: b in s.batches && e in b.events && RunOf(b, e.conversation) in s.runs)
            || (e in s.dropped && Served(s.runs, e.id))
    ensures !CapturedAgain(steps, e.id) ==> exists b :: b in s.batches && e in b.events && RunOf(b, e.conversation) in s.runs
  {
    assert Inv(START);
    RunKeeps(START, steps, s);
    if !CapturedAgain(steps, e.id) {
      OnceUnlessCapturedAgain(START, steps, s, e.id);
    }
    if e !in s.dropped {
      var i := PassedIndex(s, e);
      assert RunsMade(s.runs, s.batches[i]);
    }
  }

  lemma Apart(s: System, i: nat, j: nat, e: Event)
    requires RelaySound(s) && i < j < |s.batches|
    ensures !(e in s.batches[i].events && e in s.batches[j].events)
  {
    BatchLies(s, s.batches, i);
    BatchLies(s, s.batches, j);
    CursorsRise(s, s.batches, i, j);
  }

  /** No stored event is in two batches. */
  lemma InOneBatch(steps: seq<Step>, s: System, i: nat, j: nat, e: Event)
    requires Runs(START, steps, s) && i < |s.batches| && j < |s.batches| && e in s.batches[i].events && e in s.batches[j].events
    ensures i == j
  {
    assert Inv(START);
    RunKeeps(START, steps, s);
    if i < j {
      Apart(s, i, j, e);
    } else if j < i {
      Apart(s, j, i, e);
    }
  }

  // ---------------------------------------------------------------- messages that are delivered again

  /** A message is captured after a run that it was given to was released. */
  ghost predicate CapturedAgain(steps: seq<Step>, id: string) {
    exists i, j :: 0 <= i < j < |steps| && steps[i].Release? && id in steps[i].run && steps[j].CaptureBegins? && steps[j].id == id
  }

  ghost predicate Captures(steps: seq<Step>, id: string) {
    exists j :: 0 <= j < |steps| && steps[j].CaptureBegins? && steps[j].id == id
  }

  /** The message was stored once at most, and no batch still to come has lost it. */
  ghost predicate Once(s: System, id: string) {
    && (forall a, b :: a in s.ever && b in s.ever && a.id == id && b.id == id ==> a == b)
    && (forall e :: e in s.dropped ==> e.id != id)
  }

  /** And it is still stored, when it was stored at all. */
  ghost predicate StillStored(s: System, id: string) {
    Once(s, id) && (Known(s.ever, id) ==> Known(s.stored, id))
  }

  predicate Capturing(s: System, id: string) {
    s.capturing.Some? && s.capturing.value.id == id
  }

  /** The event of a batch for which its message is in a run. */
  lemma MemberOf(s: System, i: nat, c: string, id: string) returns (e: Event)
    requires RelaySound(s) && i < |s.batches| && id in RunOf(s.batches[i], c)
    ensures e in s.batches[i].events && e.conversation == c && e.id == id && e in s.ever && e.cursor <= LastCursor(s.batches)
  {
    var group := OfConversation(s.batches[i].events, c);
    FilterMembers(s.batches[i].events, (x: Event) => x.conversation == c);
    var k :| 0 <= k < |group| && Ids(group)[k] == id;
    e := group[k];
    assert e in group;
    BatchLies(s, s.batches, i);
  }

  lemma InItsRun(b: Batch, e: Event)
    requires e in b.events
    ensures e.id in RunOf(b, e.conversation)
  {
    var group := OfConversation(b.events, e.conversation);
    FilterMembers(b.events, (x: Event) => x.conversation == e.conversation);
    var k :| 0 <= k < |group| && group[k] == e;
    assert Ids(group)[k] == e.id;
  }

  /** Every run is for all messages of one conversation in one batch, and for one at least. */
  lemma RunsAreConversations(steps: seq<Step>, s: System, r: RunId)
    requires Runs(START, steps, s) && r in s.runs
    ensures r != []
    ensures exists i, c :: 0 <= i < |s.batches| && OfConversation(s.batches[i].events, c) != []
              && r == Ids(OfConversation(s.batches[i].events, c))
  {
    assert Inv(START);
    RunKeeps(START, steps, s);
    assert MadeFor(s.batches, r);
    var i, e :| 0 <= i < |s.batches| && e in s.batches[i].events && r == RunOf(s.batches[i], e.conversation);
    InItsRun(s.batches[i], e);
  }

  /** A release of its run deletes a message only after a batch held it, as long as it was stored once. */
  lemma ReleaseKeepsOnce(s: System, run: RunId, id: string)
    requires Inv(s) && Once(s, id) && Enabled(s, Release(run))
    ensures Once(Apply(s, Release(run)), id)
  {
    if id in run {
      assert MadeFor(s.batches, run);
      var i, x :| 0 <= i < |s.batches| && x in s.batches[i].events && run == RunOf(s.batches[i], x.conversation);
      var e := MemberOf(s, i, x.conversation, id);
      assert forall x :: x in s.stored && x.id == id ==> x == e;
    }
  }

  lemma StepKeepsStored(s: System, step: Step, id: string)
    requires Inv(s) && StillStored(s, id) && Enabled(s, step) && !(step.Release? && id in step.run)
    ensures StillStored(Apply(s, step), id)
  {
    if step.Release? {
      ReleaseKeepsOnce(s, step.run, id);
      if Known(s.stored, id) {
        ReleaseKeepsStored(s, step.run, id);
      }
    } else if step.CaptureEnds? {
      EndKeepsStored(s, id);
    }
  }

  lemma ReleaseKeepsStored(s: System, run: RunId, id: string)
    requires Enabled(s, Release(run)) && id !in run && Known(s.stored, id)
    ensures Known(Apply(s, Release(run)).stored, id)
  {
    FilterMembers(s.stored, (e: Event) => e.id !in run);
    var e :| e in s.stored && e.id == id;
    assert e in Apply(s, Release(run)).stored;
  }

  lemma EndKeepsStored(s: System, id: string)
    requires Inv(s) && StillStored(s, id) && Enabled(s, CaptureEnds)
    ensures StillStored(Apply(s, CaptureEnds), id)
  {
    var t := Apply(s, CaptureEnds);
    assert s.capturing.value in t.stored;
    assert forall e :: e in s.stored ==> e in t.stored;
  }

  lemma StepKeepsOnce(s: System, step: Step, id: string)
    requires Inv(s) && Once(s, id) && !Capturing(s, id) && Enabled(s, step) && !(step.CaptureBegins? && step.id == id)
    ensures Once(Apply(s, step), id) && !Capturing(Apply(s, step), id)
  {
    if step.Release? {
      ReleaseKeepsOnce(s, step.run, id);
    }
  }

  lemma {:induction false} RunKeepsOnce(s: System, steps: seq<Step>, t: System, id: string)
    requires Inv(s) && Once(s, id) && !Capturing(s, id) && Runs(s, steps, t) && !Captures(steps, id)
    ensures Once(t, id)
    decreases |steps|
  {
    if steps != [] {
      StepKeeps(s, steps[0]);
      StepKeepsOnce(s, steps[0], id);
      FewerCaptures(steps, id);
      RunKeepsOnce(Apply(s, steps[0]), steps[1..], t, id);
    }
  }

  lemma FewerCaptures(steps: seq<Step>, id: string)
    requires steps != []
    ensures !Captures(steps, id) ==> !Captures(steps[1..], id)
    ensures !CapturedAgain(steps, id) ==> !CapturedAgain(steps[1..], id)
    ensures !CapturedAgain(steps, id) && steps[0].Release? && id in steps[0].run ==> !Captures(steps[1..], id)
  {
    assert forall j :: 0 <= j < |steps| - 1 ==> steps[1..][j] == steps[j + 1];
  }

  lemma {:induction false} OnceUnlessCapturedAgain(s: System, steps: seq<Step>, t: System, id: string)
    requires Inv(s) && StillStored(s, id) && Runs(s, steps, t) && !CapturedAgain(steps, id)
    ensures Once(t, id)
    decreases |steps|
  {
    if steps != [] {
      var step, next := steps[0], Apply(s, steps[0]);
      StepKeeps(s, step);
      FewerCaptures(steps, id);
      if step.Release? && id in step.run {
        ReleaseKeepsOnce(s, step.run, id);
        RunKeepsOnce(next, steps[1..], t, id);
      } else {
        StepKeepsStored(s, step, id);
        OnceUnlessCapturedAgain(next, steps[1..], t, id);
      }
    }
  }

  /** The run of this batch for this conversation was made: of all batches but a pending one that goes without saying. */
  predicate MadeIfPending(s: System, j: nat, conversation: string)
    requires j < |s.batches|
  {
    s.pending.Some? && j == |s.batches| - 1 ==> RunOf(s.batches[j], conversation) in s.runs
  }

  /** The message is in two batches, in different lists of its conversation. */
  ghost predicate BatchedTwice(s: System, id: string, i: nat, j: nat, a: Event, b: Event) {
    && i < j < |s.batches| && a in s.batches[i].events && b in s.batches[j].events && a.id == b.id == id
    && RunOf(s.batches[i], a.conversation) != RunOf(s.batches[j], b.conversation) && MadeIfPending(s, j, b.conversation)
  }

  ghost predicate InTwoRuns(s: System, id: string) {
    exists p, q :: p in s.runs && q in s.runs && p != q && id in p && id in q
  }

  /**
   * However often a batch is replayed, a message is given to two runs exactly when it is in two
   * batches whose lists of its conversation differ (and the later one, while it is pending, has got
   * that far); so never unless it was captured again after a run of it was released.
   */
  lemma TwoRunsExactly(steps: seq<Step>, s: System, id: string)
    requires Runs(START, steps, s)
    ensures InTwoRuns(s, id) <==> CameTwice(s, id)
    ensures InTwoRuns(s, id) ==> CapturedAgain(steps, id)
  {
    assert Inv(START);
    RunKeeps(START, steps, s);
    if InTwoRuns(s, id) {
      var i, j, a, b := TwoBatches(s, id);
      NotOnce(s, id, i, j, a, b);
      CapturedUnlessOnce(steps, s, id);
    }
    if CameTwice(s, id) {
      var i: nat, j: nat, a, b :| BatchedTwice(s, id, i, j, a, b);
      BatchedTwiceIsInTwoRuns(s, id, i, j, a, b);
    }
  }

  ghost predicate CameTwice(s: System, id: string) {
    exists i: nat, j: nat, a, b :: BatchedTwice(s, id, i, j, a, b)
  }

  lemma BatchedTwiceIsInTwoRuns(s: System, id: string, i: nat, j: nat, a: Event, b: Event)
    requires Inv(s) && BatchedTwice(s, id, i, j, a, b)
    ensures InTwoRuns(s, id)
  {
    PassedHasRuns(s, i, a);
    if j < |s.batches| - 1 || s.pending.None? {
      PassedHasRuns(s, j, b);
    }
    InItsRun(s.batches[i], a);
    InItsRun(s.batches[j], b);
  }

  /** All batches but a pending one have their runs. */
  lemma PassedHasRuns(s: System, j: nat, e: Event)
    requires Inv(s) && j < |s.batches| && (j < |s.batches| - 1 || s.pending.None?) && e in s.batches[j].events
    ensures RunOf(s.batches[j], e.conversation) in s.runs
  {
    if j < |s.batches| - 1 {
      EarlierIsPassed(s, j);
    }
    assert RunsMade(s.runs, s.batches[j]);
  }

  lemma CapturedUnlessOnce(steps: seq<Step>, s: System, id: string)
    requires Runs(START, steps, s) && !Once(s, id)
    ensures CapturedAgain(steps, id)
  {
    if !CapturedAgain(steps, id) {
      assert Inv(START);
      OnceUnlessCapturedAgain(START, steps, s, id);
    }
  }

  lemma NotOnce(s: System, id: string, i: nat, j: nat, a: Event, b: Event)
    requires RelaySound(s) && BatchedTwice(s, id, i, j, a, b)
    ensures !Once(s, id)
  {
    Apart(s, i, j, a);
    BatchLies(s, s.batches, i);
    BatchLies(s, s.batches, j);
  }

  lemma TwoBatches(s: System, id: string) returns (i: nat, j: nat, a: Event, b: Event)
    requires Inv(s) && InTwoRuns(s, id)
    ensures BatchedTwice(s, id, i, j, a, b)
  {
    var p, q :| p in s.runs && q in s.runs && p != q && id in p && id in q;
    assert MadeFor(s.batches, p) && MadeFor(s.batches, q);
    var k, m :| 0 <= k < |s.batches| && m in s.batches[k].events && p == RunOf(s.batches[k], m.conversation);
    var l, n :| 0 <= l < |s.batches| && n in s.batches[l].events && q == RunOf(s.batches[l], n.conversation);
    var x := MemberOf(s, k, m.conversation, id);
    var y := MemberOf(s, l, n.conversation, id);
    BatchLies(s, s.batches, k);
    BatchLies(s, s.batches, l);
    if k < l {
      CursorsRise(s, s.batches, k, l);
      i, j, a, b := k, l, x, y;
    } else if l < k {
      CursorsRise(s, s.batches, l, k);
      i, j, a, b := l, k, y, x;
    } else {
      SameInNeat(s.batches[k].events, s.batches[k].cursor, x, y);
    }
  }

  lemma SameInNeat(events: seq<Event>, last: nat, a: Event, b: Event)
    requires Neat(events, last) && a in events && b in events && a.id == b.id
    ensures a == b
  {
    var i :| 0 <= i < |events| && events[i] == a;
    var j :| 0 <= j < |events| && events[j] == b;
    assert i == j;
  }

  lemma PageOfOne(a: Event, after: nat)
    requires a.cursor > after
    ensures Page([a], after) == Batch([a], a.cursor) && RunOf(Batch([a], a.cursor), a.conversation) == [a.id]
  {
    FilterPair(a, a, (e: Event) => e.cursor > after);
    FilterPair(a, a, (e: Event) => e.conversation == a.conversation);
  }

  lemma PageOfTwo(a: Event, b: Event, after: nat)
    requires a.cursor > after && b.cursor > after && b.conversation == a.conversation
    ensures Page([a, b], after) == Batch([a, b], b.cursor) && RunOf(Batch([a, b], b.cursor), a.conversation) == [a.id, b.id]
  {
    FilterPair(a, b, (e: Event) => e.cursor > after);
    FilterPair(a, b, (e: Event) => e.conversation == a.conversation);
  }

  const FIRST := Event("a", "c", 1)

  /** One message: captured and batched. */
  lemma FirstBatch() returns (steps: seq<Step>, s: System)
    ensures Runs(START, steps, s)
    ensures s == System(1, None, [FIRST], 0, Some(Batch([FIRST], 1)), Some(Batch([FIRST], 1)), {}, [FIRST], [Batch([FIRST], 1)], {})
  {
    var s1 := Apply(START, CaptureBegins("a", "c"));
    var s2 := Apply(s1, CaptureEnds);
    assert s2 == System(1, None, [FIRST], 0, None, None, {}, [FIRST], [], {});
    PageOfOne(FIRST, 0);
    var s3 := Apply(s2, Fetch);
    s := Apply(s3, Remember);
    steps := [CaptureBegins("a", "c"), CaptureEnds, Fetch, Remember];
    FollowsIsRun(steps, [START, s1, s2, s3, s]);
  }

  /** And given to a run. */
  lemma FirstRun() returns (steps: seq<Step>, s: System)
    ensures Runs(START, steps, s)
    ensures s == System(1, None, [FIRST], 0, Some(Batch([FIRST], 1)), Some(Batch([FIRST], 1)), {["a"]}, [FIRST],
            [Batch([FIRST], 1)], {})
  {
    var before, s4 := FirstBatch();
    PageOfOne(FIRST, 0);
    assert FIRST in s4.pending.value.events;
    s := Apply(s4, CreateRun("c"));
    FollowsIsRun([CreateRun("c")], [s4, s]);
    RunsConcat(START, before, s4, [CreateRun("c")], s);
    steps := before + [CreateRun("c")];
  }

  /** Its batch is passed, and its run released. */
  lemma FirstRelease() returns (steps: seq<Step>, s: System)
    ensures Runs(START, steps, s) && s == System(1, None, [], 1, None, None, {["a"]}, [FIRST], [Batch([FIRST], 1)], {})
  {
    var before, s5 := FirstRun();
    PageOfOne(FIRST, 0);
    var s6 := Apply(s5, Advance);
    var s7 := Apply(s6, Clear);
    FilterPair(FIRST, FIRST, (e: Event) => e.id !in ["a"]);
    s := Apply(s7, Release(["a"]));
    assert s.dropped == {};
    var after := [Advance, Clear, Release(["a"])];
    FollowsIsRun(after, [s5, s6, s7, s]);
    RunsConcat(START, before, s5, after, s);
    steps := before + after;
  }

  /** States that follow one another by these steps. */
  ghost predicate Follows(states: seq<System>, steps: seq<Step>) {
    |states| == |steps| + 1 && forall i :: 0 <= i < |steps| ==>
        Enabled(states[i], steps[i]) && states[i + 1] == Apply(states[i], steps[i])
  }

  lemma {:induction false} FollowsIsRun(steps: seq<Step>, states: seq<System>)
    requires Follows(states, steps)
    ensures Runs(states[0], steps, states[|steps|])
    decreases |steps|
  {
    if steps != [] {
      assert forall i :: 0 <= i < |steps| - 1 ==> steps[1..][i] == steps[i + 1] && states[1..][i] == states[i + 1];
      FollowsIsRun(steps[1..], states[1..]);
    }
  }

  const AGAIN := Event("a", "c", 2)
  const OTHER := Event("b", "c", 3)

  /** Delivered again after that, the message is captured again, and so is another one. */
  lemma Recaptured(s0: System) returns (steps: seq<Step>, s: System)
    requires s0 == System(1, None, [], 1, None, None, {["a"]}, [FIRST], [Batch([FIRST], 1)], {})
    ensures Runs(s0, steps, s)
    ensures s == System(3, None, [AGAIN, OTHER], 1, None, None, {["a"]}, [FIRST, AGAIN, OTHER], [Batch([FIRST], 1)], {})
  {
    var s1 := Apply(s0, CaptureBegins("a", "c"));
    var s2 := Apply(s1, CaptureEnds);
    var s3 := Apply(s2, CaptureBegins("b", "c"));
    s := Apply(s3, CaptureEnds);
    steps := [CaptureBegins("a", "c"), CaptureEnds, CaptureBegins("b", "c"), CaptureEnds];
    FollowsIsRun(steps, [s0, s1, s2, s3, s]);
  }

  /** Batched together, both are given to a second run. */
  lemma RedeliveryGivesTwoRuns()
    ensures exists steps, s :: Runs(START, steps, s) && InTwoRuns(s, "a")
  {
    var before, s0 := FirstRelease();
    var again, s4 := Recaptured(s0);
    PageOfTwo(AGAIN, OTHER, 1);
    var s5 := Apply(s4, Fetch);
    var s6 := Apply(s5, Remember);
    assert AGAIN in s6.pending.value.events;
    var s := Apply(s6, CreateRun("c"));
    FollowsIsRun([Fetch, Remember, CreateRun("c")], [s4, s5, s6, s]);
    RunsConcat(s0, again, s4, [Fetch, Remember, CreateRun("c")], s);
    RunsConcat(START, before, s0, again + [Fetch, Remember, CreateRun("c")], s);
    assert ["a"] in s.runs && ["a", "b"] in s.runs && "a" in ["a"] && "a" in ["a", "b"];
    assert |["a"]| != |["a", "b"]|;
  }

  lemma {:induction false} RunsConcat(s: System, first: seq<Step>, t: System, second: seq<Step>, u: System)
    requires Runs(s, first, t) && Runs(t, second, u)
    ensures Runs(s, first + second, u)
    decreases |first|
  {
    if first == [] {
      assert first + second == second;
    } else {
      RunsConcat(Apply(s, first[0]), first[1..], t, second, u);
      assert (first + second)[1..] == first[1..] + second;
    }
  }

  // ---------------------------------------------------------------- the source and the relay at work

  lemma {:induction false} OneMore(s: System, steps: seq<Step>, t: System, step: Step)
    requires Runs(s, steps, t) && Enabled(t, step)
    ensures Runs(s, steps + [step], Apply(t, step))
    decreases |steps|
  {
    if steps != [] {
      OneMore(Apply(s, steps[0]), steps[1..], t, step);
      assert (steps + [step])[1..] == steps[1..] + [step];
    }
  }

  ghost predicate Admitted(admits: string -> bool, b: Batch, r: RunId) {
    exists c :: admits(c) && r == RunOf(b, c)
  }

  class SourceRelay {
    var system: System
    ghost var steps: seq<Step>

    constructor ()
      ensures Valid() && system == START
    {
      system, steps := START, [];
    }

    /** Whatever was done was steps of the protocol, so everything proved of its runs holds. */
    ghost predicate Valid()
      reads this
    {
      Runs(START, steps, system)
    }

    method Do(step: Step)
      requires Valid() && Enabled(system, step)
      modifies this
      ensures Valid() && system == Apply(old(system), step)
    {
      OneMore(START, steps, system, step);
      system, steps := Apply(system, step), steps + [step];
    }

    /** A message is stored once, if there is room; the source may stop between the cursor and the event. */
    method Capture(id: string, conversation: string, full: bool, stops: bool)
      requires Valid() && system.capturing.None?
      modifies this
      ensures Valid() && system.capturing.None?
      ensures system.ever == if full || Known(old(system).stored, id) || stops then old(system).ever
                             else old(system).ever + [Event(id, conversation, old(system).cursor + 1)]
    {
      if Known(system.stored, id) || full {
        return;
      }
      Do(CaptureBegins(id, conversation));
      Do(if stops then SourceStops else CaptureEnds);
    }

    /** Runs for the conversations of the batch at hand; `all` tells whether none was put off. */
    method CreateRuns(admits: string -> bool, writes: nat) returns (all: bool, left: nat)
      requires Valid() && system.fetched.Some? && system.pending == system.fetched
      modifies this
      ensures Valid() && system == old(system).(runs := system.runs) && old(system).runs <= system.runs && left <= writes
      ensures all && left > 0 ==> RunsMade(system.runs, system.fetched.value)
      ensures forall r :: r in system.runs && r !in old(system).runs ==> Admitted(admits, system.fetched.value, r)
    {
      all, left := true, writes;
      var batch := system.fetched.value;
      for i := 0 to |batch.events|
        invariant Valid() && system == old(system).(runs := system.runs) && old(system).runs <= system.runs && left <= writes
        invariant all && left > 0 ==> forall j :: 0 <= j < i ==> RunOf(batch, batch.events[j].conversation) in system.runs
        invariant forall r :: r in system.runs && r !in old(system).runs ==> Admitted(admits, batch, r)
      {
        var conversation := batch.events[i].conversation;
        if RunOf(batch, conversation) !in system.runs {
          if !admits(conversation) {
            all := false;
          } else if left > 0 {
            assert batch.events[i] in batch.events;
            assert Admitted(admits, batch, RunOf(batch, conversation));
            Do(CreateRun(conversation));
            left := left - 1;
          }
        }
      }
    }

    /**
     * One pass over the source. The relay stops after `writes` writes to the disk, wherever that is;
     * when it does not and no conversation is put off, the batch is done.
     */
    method Drain(ready: bool, admits: string -> bool, writes: nat) returns (done: bool)
      requires Valid() && system.capturing.None? && system.fetched.None?
      modifies this
      ensures Valid() && system.fetched.None? && system.ever == old(system).ever && system.stored == old(system).stored
      ensures !ready ==> system == old(system)
      ensures done ==> system.pending.None? && system.batches != [] && system.after == LastCursor(system.batches)
      ensures old(system).pending.Some? ==> system.batches == old(system).batches
    {
      done := false;
      Do(Fetch);
      if ready && writes > 0 {
        Do(Remember);
        assert system.pending == system.fetched;
        var all, left := CreateRuns(admits, writes - 1);
        if all && left > 0 {
          AtHand();
          Do(Advance);
          if left > 1 {
            Do(Clear);
            return true;
          }
        }
      }
      Do(RelayStops);
    }

    lemma AtHand()
      requires Valid() && system.pending.Some?
      ensures system.batches != [] && LastCursor(system.batches) == system.pending.value.cursor
    {
      assert Inv(START);
      RunKeeps(START, steps, system);
    }
  }
}
