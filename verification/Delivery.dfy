/**
 * Sends of a task's worker. The worker marks an operation uncertain on disk before it asks the chat
 * source; the source marks a receipt uncertain before it calls the provider. Either may stop at any
 * point, and nothing is ever retried blindly.
 */
module Delivery {
  import opened Options

  /** Of a task that lasts until it is revoked, keys belong to the run; of others, to the task. */
  datatype Key = Key(run: Option<string>, name: string)

  datatype Certainty = Uncertain | Accepted

  /** What a send asks for; a file and a voice recording exclude each other. */
  datatype Message = Message(text: string, attachment: Option<string>, voice: bool)

  datatype Op = Op(message: Message, state: Certainty)

  datatype RunStatus = Queued | Running | Ended

  datatype Worker = Idle | Marked(key: Key) | Asked(key: Key)

  datatype Source = Free | Sending(key: Key) | Sent(key: Key)

  /**
   * `ops` and `receipts` are on disk; `requests` are on their way to the source; `calls` are those the
   * provider saw, and `ever` the keys ever marked.
   */
  datatype System = System(untilRevoked: bool, runs: map<string, RunStatus>, ops: map<Key, Op>, worker: Worker,
                           requests: multiset<Key>, receipts: map<Key, Certainty>, source: Source, calls: multiset<Key>,
                           ever: set<Key>)

  function KeyOf(untilRevoked: bool, run: string, name: string): Key {
    Key(if untilRevoked then Some(run) else None, name)
  }

  predicate Live(runs: map<string, RunStatus>, run: string) {
    run in runs && !runs[run].Ended?
  }

  /** An operation is kept while its run may still send, and as long as it is uncertain. */
  predicate Kept(s: System, k: Key)
    requires k in s.ops
  {
    !s.untilRevoked || s.ops[k].state.Uncertain? || (k.run.Some? && Live(s.runs, k.run.value))
  }

  const MOST_SENDS := 30

  /** A run, or a task that is not kept by runs, may have thirty operations. */
  predicate Room(s: System, run: string) {
    |set k | k in Pruned(s) && (s.untilRevoked ==> k.run == Some(run))| < MOST_SENDS
  }

  function Pruned(s: System): map<Key, Op> {
    map k | k in s.ops && Kept(s, k) :: s.ops[k]
  }

  datatype Step = Mark(run: string, name: string, message: Message)
                | Ask
                | Abandon
                | Record
                | Take(asked: Key, keep: set<Key>)
                | Answer(known: Key)
                | Call
                | Confirm
                | SourceStops
                | RunMoves(moved: string, status: RunStatus)

  predicate Enabled(s: System, step: Step) {
    match step
    case Mark(run, name, _) => s.worker.Idle? && run in s.runs && s.runs[run].Running?
        && KeyOf(s.untilRevoked, run, name) !in s.ops && Room(s, run)
    case Ask => s.worker.Marked?
    case Abandon => true
    case Record => s.worker.Asked? && s.worker.key in s.receipts && s.receipts[s.worker.key].Accepted? && s.worker.key in s.ops
    case Take(k, keep) =>
      && s.source.Free? && k in s.requests && k !in s.receipts
      && forall r :: r in s.receipts && s.receipts[r].Uncertain? ==> r in keep
    case Answer(k) => s.source.Free? && k in s.requests && k in s.receipts
    case Call => s.source.Sending?
    case Confirm => s.source.Sent?
    case SourceStops => true
    case RunMoves(run, status) => if run in s.runs then !s.runs[run].Ended? else status.Queued?
  }

  function Apply(s: System, step: Step): System
    requires Enabled(s, step)
  {
    match step
    case Mark(run, name, message) =>
      var k := KeyOf(s.untilRevoked, run, name);
      s.(ops := Pruned(s)[k := Op(message, Uncertain)], worker := Marked(k), ever := s.ever + {k})
    case Ask => s.(worker := Asked(s.worker.key), requests := s.requests + multiset{s.worker.key})
    case Abandon => s.(worker := Idle)
    case Record => s.(worker := Idle, ops := s.ops[s.worker.key := s.ops[s.worker.key].(state := Accepted)])
    case Take(k, keep) =>
      s.(requests := s.requests - multiset{k}, source := Sending(k),
         receipts := (map r | r in s.receipts && r in keep :: s.receipts[r])[k := Uncertain])
    case Answer(k) => s.(requests := s.requests - multiset{k})
    case Call => s.(calls := s.calls + multiset{s.source.key}, source := Sent(s.source.key))
    case Confirm => s.(receipts := s.receipts[s.source.key := Accepted], source := Free)
    case SourceStops => s.(source := Free, requests := multiset{})
    case RunMoves(run, status) => s.(runs := s.runs[run := status])
  }

  function Start(untilRevoked: bool): System {
    System(untilRevoked, map[], map[], Idle, multiset{}, map[], Free, multiset{}, {})
  }

  predicate Runs(s: System, steps: seq<Step>, t: System)
    decreases |steps|
  {
    if steps == [] then s == t else Enabled(s, steps[0]) && Runs(Apply(s, steps[0]), steps[1..], t)
  }

  /** How many calls of the provider a key has had or may still cause. */
  function Load(s: System, k: Key): nat {
    s.calls[k] + s.requests[k] + (if s.source == Sending(k) then 1 else 0) + (if s.worker == Marked(k) then 1 else 0)
  }

  /** A key can never be marked again. */
  predicate Spent(s: System, k: Key) {
    k in s.ops || (s.untilRevoked && k.run.Some? && k.run.value in s.runs && s.runs[k.run.value].Ended?)
  }

  ghost predicate Inv(s: System) {
    && (forall k :: Load(s, k) <= 1 && (Load(s, k) > 0 || k in s.ops ==> k in s.ever))
    && (forall k :: k in s.ever ==> Spent(s, k) && (s.untilRevoked ==> k.run.Some? && k.run.value in s.runs))
  }

  lemma SpentStays(s: System, step: Step, k: Key)
    requires Enabled(s, step) && Spent(s, k) && (s.untilRevoked ==> k.run.Some? && k.run.value in s.runs)
    ensures Spent(Apply(s, step), k)
  {
  }

  lemma LoadGrowsOnlyByMark(s: System, step: Step, k: Key)
    requires Enabled(s, step)
    ensures step.Mark? && k == KeyOf(s.untilRevoked, step.run, step.name) ==> Load(Apply(s, step), k) <= Load(s, k) + 1
    ensures !(step.Mark? && k == KeyOf(s.untilRevoked, step.run, step.name)) ==> Load(Apply(s, step), k) <= Load(s, k)
  {
  }

  lemma MarkedKeyIsNew(s: System, step: Step)
    requires Inv(s) && Enabled(s, step) && step.Mark?
    ensures KeyOf(s.untilRevoked, step.run, step.name) !in s.ever
  {
    assert !Spent(s, KeyOf(s.untilRevoked, step.run, step.name));
  }

  lemma StepKeeps(s: System, step: Step)
    requires Inv(s) && Enabled(s, step)
    ensures Inv(Apply(s, step))
  {
    var t := Apply(s, step);
    if step.Mark? {
      MarkedKeyIsNew(s, step);
    }
    forall k ensures Load(t, k) <= 1 && (Load(t, k) > 0 || k in t.ops ==> k in t.ever) {
      LoadGrowsOnlyByMark(s, step, k);
      assert Load(s, k) <= 1 && (Load(s, k) > 0 || k in s.ops ==> k in s.ever);
    }
    forall k | k in t.ever ensures Spent(t, k) && (t.untilRevoked ==> k.run.Some? && k.run.value in t.runs) {
      if k in s.ever {
        SpentStays(s, step, k);
      }
    }
  }

  lemma {:induction false} RunKeeps(s: System, steps: seq<Step>, t: System)
    requires Inv(s) && Runs(s, steps, t)
    ensures Inv(t)
    decreases |steps|
  {
    if steps != [] {
      StepKeeps(s, steps[0]);
      RunKeeps(Apply(s, steps[0]), steps[1..], t);
    }
  }

  /** Whatever stops and whenever: the provider is called at most once for a key. */
  lemma CalledAtMostOnce(untilRevoked: bool, steps: seq<Step>, s: System, k: Key)
    requires Runs(Start(untilRevoked), steps, s)
    ensures s.calls[k] <= 1
    ensures s.calls[k] == 1 ==> k in s.ops || (k.run.Some? && k.run.value in s.runs && s.runs[k.run.value].Ended?)
  {
    RunKeeps(Start(untilRevoked), steps, s);
    assert Load(s, k) <= 1 && (k in s.ever ==> Spent(s, k)) && (Load(s, k) > 0 ==> k in s.ever);
  }

  /**
   * An operation goes from absent to uncertain to accepted and never back; it is forgotten only when
   * it was accepted and its run has ended, and an ended run sends nothing more.
   */
  lemma OperationsMoveForward(s: System, step: Step, k: Key)
    requires Inv(s) && Enabled(s, step)
    ensures var t := Apply(s, step);
            && (k !in s.ops && k in t.ops ==> t.ops[k].state.Uncertain? && k !in s.ever)
            && (k in s.ops && k in t.ops ==>
                t.ops[k].message == s.ops[k].message && (s.ops[k].state.Accepted? ==> t.ops[k] == s.ops[k]))
            && (k in s.ops && k !in t.ops ==>
                s.ops[k].state.Accepted? && k.run.Some? && k.run.value in s.runs && s.runs[k.run.value].Ended?)
            && (step.Mark? && s.untilRevoked && k in s.ops && s.ops[k].state == Accepted ==>
                  k.run.Some? && k.run.value in s.runs && s.runs[k.run.value] == Ended ==> k !in t.ops)
  {
    if step.Mark? {
      MarkedKeyIsNew(s, step);
    }
    assert k in s.ops ==> k in s.ever;
  }

  // ---------------------------------------------------------------- what an acceptance says

  /** Whatever is known as accepted was called, and what the source is at has an uncertain receipt. */
  ghost predicate Honest(s: System) {
    && (forall k :: k in s.ops && s.ops[k].state.Accepted? ==> k in s.calls)
    && (forall k :: k in s.receipts && s.receipts[k].Accepted? ==> k in s.calls)
    && (!s.source.Free? ==> s.source.key in s.receipts && s.receipts[s.source.key].Uncertain?)
    && (s.source.Sent? ==> s.source.key in s.calls)
  }

  lemma StepIsHonest(s: System, step: Step)
    requires Honest(s) && Enabled(s, step)
    ensures Honest(Apply(s, step))
  {
  }

  lemma {:induction false} RunIsHonest(s: System, steps: seq<Step>, t: System)
    requires Honest(s) && Runs(s, steps, t)
    ensures Honest(t)
    decreases |steps|
  {
    if steps != [] {
      StepIsHonest(s, steps[0]);
      RunIsHonest(Apply(s, steps[0]), steps[1..], t);
    }
  }

  /** An operation or a receipt is accepted only behind the one call of the provider, and that only behind its mark. */
  lemma AcceptedWasSent(untilRevoked: bool, steps: seq<Step>, s: System, k: Key)
    requires Runs(Start(untilRevoked), steps, s)
    ensures k in s.ops && s.ops[k].state == Accepted ==> s.calls[k] == 1
    ensures k in s.receipts && s.receipts[k] == Accepted ==> s.calls[k] == 1
    ensures s.calls[k] > 0 ==> k in s.ever
  {
    RunIsHonest(Start(untilRevoked), steps, s);
    RunKeeps(Start(untilRevoked), steps, s);
    assert Load(s, k) <= 1 && (Load(s, k) > 0 ==> k in s.ever);
  }

  /** A receipt begins uncertain, becomes accepted, never goes back, and is forgotten only when accepted. */
  lemma ReceiptsMoveForward(s: System, step: Step, k: Key)
    requires Honest(s) && Enabled(s, step)
    ensures var t := Apply(s, step);
            && (k !in s.receipts && k in t.receipts ==> t.receipts[k] == Uncertain && t.source == Sending(k) && t.calls == s.calls)
            && (k in s.receipts && k !in t.receipts ==> s.receipts[k] == Accepted)
            && (k in s.receipts && k in t.receipts && s.receipts[k] != t.receipts[k] ==>
                  s.receipts[k] == Uncertain && t.receipts[k] == Accepted && s.source == Sent(k))
  {
  }

  // ---------------------------------------------------------------- room

  /** The operations that count for a run: its own, of a task that lasts until revoked; of any other task, all. */
  function Counting(s: System, run: string): set<Key> {
    set k | k in s.ops && (s.untilRevoked ==> k.run == Some(run))
  }

  lemma SmallerSet(a: set<Key>, b: set<Key>)
    requires a <= b
    ensures |a| <= |b|
    decreases |b|
  {
    if a != {} {
      var k :| k in a;
      SmallerSet(a - {k}, b - {k});
    }
  }

  lemma StepKeepsFew(s: System, step: Step, run: string)
    requires Enabled(s, step) && |Counting(s, run)| <= 30
    ensures |Counting(Apply(s, step), run)| <= 30
  {
    if step.Mark? && (s.untilRevoked ==> step.run == run) {
      MarkKeepsFew(s, step, run);
    } else {
      SmallerSet(Counting(Apply(s, step), run), Counting(s, run));
    }
  }

  lemma MarkKeepsFew(s: System, step: Step, run: string)
    requires Enabled(s, step) && step.Mark? && (s.untilRevoked ==> step.run == run)
    ensures |Counting(Apply(s, step), run)| <= 30
  {
    var room := set j | j in Pruned(s) && (s.untilRevoked ==> j.run == Some(step.run));
    assert Counting(Apply(s, step), run) == room + {KeyOf(s.untilRevoked, step.run, step.name)};
  }

  /** No run ever has more than thirty operations at a time, and no task that is not kept by runs. */
  lemma {:induction false} OperationsAreFew(s: System, steps: seq<Step>, t: System, run: string)
    requires |Counting(s, run)| <= 30 && Runs(s, steps, t)
    ensures |Counting(t, run)| <= 30
    decreases |steps|
  {
    if steps != [] {
      StepKeepsFew(s, steps[0], run);
      OperationsAreFew(Apply(s, steps[0]), steps[1..], t, run);
    }
  }

  /** A running run has room for one more exactly while fewer count for it. */
  lemma RoomExactly(s: System, run: string)
    requires run in s.runs && s.runs[run] == Running
    ensures Room(s, run) <==> |Counting(s, run)| < 30
  {
    assert Counting(s, run) == set k | k in Pruned(s) && (s.untilRevoked ==> k.run == Some(run));
  }

  // ---------------------------------------------------------------- the worker's call

  datatype Fault = NoFault | StopsMarked | AuthorityLost | SourceFails | SourceDiesBeforeCall | SourceDiesAfterCall | SaveFails

  lemma {:induction false} OneMore(s: System, steps: seq<Step>, t: System, step: Step)
    requires Runs(s, steps, t) && Enabled(t, step)
    ensures Runs(s, steps + [step], Apply(t, step))
    decreases |steps|
  {
    if steps != [] {
      OneMore(Apply(s, steps[0]), steps[1..], t, step);
      assert (steps + [step])[1..] == steps[1..] + [step];
    }
  }

  class TaskWorker {
    var system: System
    ghost var steps: seq<Step>

    constructor (untilRevoked: bool)
      ensures Valid() && system == Start(untilRevoked)
    {
      system, steps := Start(untilRevoked), [];
    }

    /** Whatever the worker did was steps of the protocol, so everything proved of its runs holds. */
    ghost predicate Valid()
      reads this
    {
      Runs(Start(system.untilRevoked), steps, system)
    }

    method Do(step: Step)
      requires Valid() && Enabled(system, step)
      modifies this
      ensures Valid() && system == Apply(old(system), step)
    {
      OneMore(Start(system.untilRevoked), steps, system, step);
      system, steps := Apply(system, step), steps + [step];
    }

    /** The source sends a message it has no receipt of, unless it dies before or after it called the provider. */
    method CallProvider(k: Key, fault: Fault, keep: set<Key>)
      requires Valid() && system.source.Free? && system.requests == multiset{k} && k !in system.receipts
      requires forall r :: r in system.receipts && system.receipts[r].Uncertain? ==> r in keep
      modifies this
      ensures Valid() && system.source.Free? && system.requests == multiset{}
      ensures system == old(system).(calls := system.calls, receipts := system.receipts, requests := multiset{})
      ensures system.calls == old(system).calls + (if fault.SourceDiesBeforeCall? then multiset{} else multiset{k})
      ensures k in system.receipts && (system.receipts[k].Accepted?
              <==> !fault.SourceDiesBeforeCall? && !fault.SourceDiesAfterCall?)
    {
      Do(Take(k, keep));
      if fault.SourceDiesBeforeCall? {
        Do(SourceStops);
        return;
      }
      Do(Call);
      Do(if fault.SourceDiesAfterCall? then SourceStops else Confirm);
    }

    /** The source answers a request from its receipt, sends, or does not get that far. */
    method Provide(k: Key, fault: Fault, keep: set<Key>)
      requires Valid() && system.source.Free? && system.requests == multiset{k}
      requires forall r :: r in system.receipts && system.receipts[r].Uncertain? ==> r in keep
      modifies this
      ensures Valid() && system.source.Free? && system.requests == multiset{}
      ensures system == old(system).(calls := system.calls, receipts := system.receipts, requests := multiset{})
      ensures fault.SourceFails? || k in old(system).receipts ==>
              system.calls == old(system).calls && system.receipts == old(system).receipts
      ensures !fault.SourceFails? && k !in old(system).receipts ==>
                && system.calls == old(system).calls + (if fault.SourceDiesBeforeCall? then multiset{} else multiset{k})
                && k in system.receipts && (system.receipts[k].Accepted?
                   <==> !fault.SourceDiesBeforeCall? && !fault.SourceDiesAfterCall?)
    {
      if fault.SourceFails? {
        Do(SourceStops);
      } else if k in system.receipts {
        Do(Answer(k));
      } else {
        CallProvider(k, fault, keep);
      }
    }

    /**
     * One send of a running run while nothing else is on its way. A known key answers what is known
     * of it; a key used for another message is refused, and so is one too many or one that could not
     * be prepared: `prepared` says that the file was authorized, the channel takes it, and a recording was made.
     */
    method Send(run: string, name: string, message: Message, prepared: bool, fault: Fault, keep: set<Key>) returns (r: Result<Op>)
      requires Valid() && run in system.runs && system.runs[run].Running?
      requires system.worker.Idle? && system.source.Free? && system.requests == multiset{}
      requires forall k :: k in system.receipts && system.receipts[k].Uncertain? ==> k in keep
      modifies this
      ensures Valid() && system.worker.Idle?
      ensures var k := KeyOf(old(system).untilRevoked, run, name);
              k in old(system).ops ==> system == old(system) && r == if old(system).ops[k].message == message
                  then Ok(old(system).ops[k]) else Refused
      ensures var k := KeyOf(old(system).untilRevoked, run, name);
              k !in old(system).ops && !(prepared && Room(old(system), run)) ==> system == old(system) && r.Refused?
      ensures var k := KeyOf(old(system).untilRevoked, run, name);
              k !in old(system).ops && prepared && Room(old(system), run) ==>
                && r.Ok? && r.value.message == message && k in system.ops && system.ops[k].message == message
                && (system.ops[k].state.Accepted? ==> r.value.state.Accepted?)
                && (fault.NoFault? && k !in old(system).receipts ==>
                      r.value.state.Accepted? && system.ops[k].state.Accepted? && system.calls == old(system).calls + multiset{k})
    {
      var k := KeyOf(system.untilRevoked, run, name);
      if k in system.ops {
        return if system.ops[k].message == message then Ok(system.ops[k]) else Refused;
      }
      if !prepared || !Room(system, run) {
        return Refused;
      }
      var op := SendNew(run, name, message, fault, keep);
      return Ok(op);
    }

    /** A key that is new is marked, asked for and recorded, as far as nothing fails. */
    method SendNew(run: string, name: string, message: Message, fault: Fault, keep: set<Key>) returns (op: Op)
      requires Valid() && Enabled(system, Mark(run, name, message))
      requires system.source.Free? && system.requests == multiset{}
      requires forall k :: k in system.receipts && system.receipts[k].Uncertain? ==> k in keep
      modifies this
      ensures Valid() && system.worker.Idle?
      ensures var k := KeyOf(old(system).untilRevoked, run, name);
              && op.message == message && k in system.ops && system.ops[k].message == message
              && (system.ops[k].state.Accepted? ==> op.state.Accepted?)
      ensures var k := KeyOf(old(system).untilRevoked, run, name);
              fault.NoFault? && k !in old(system).receipts ==>
                op.state.Accepted? && system.ops[k].state.Accepted? && system.calls == old(system).calls + multiset{k}
    {
      var k := KeyOf(system.untilRevoked, run, name);
      Do(Mark(run, name, message));
      op := system.ops[k];
      if !fault.StopsMarked? && !fault.AuthorityLost? {
        Do(Ask);
        Provide(k, fault, keep);
        if k in system.receipts && system.receipts[k].Accepted? && (fault.NoFault? || fault.SaveFails?) {
          op := op.(state := Accepted);
          if fault.NoFault? {
            Do(Record);
          }
        }
      }
      Do(Abandon);
    }
  }
}
