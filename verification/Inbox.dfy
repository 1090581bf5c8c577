/**
 * Incoming updates are sealed into batches before anything is made of them. Each batch belongs to
 * one chat and one execution choice, and an album is not split.
 */
module Inbox {
  import opened Options
  import opened Sequences

  /** An accepted update; `execution` stands for the captured choice of setup. */
  datatype Entry = Entry(updateId: nat, chat: Option<int>, album: Option<string>, receivedAt: int, execution: Option<string>)

  datatype Status = Pending | Failed | Cancelled

  datatype Batch = Batch(id: nat, entries: seq<Entry>, status: Status)

  const MOST := 10

  predicate Together(a: Entry, b: Entry) {
    a.chat == b.chat && a.execution == b.execution
  }

  predicate SameAlbum(a: Entry, b: Entry) {
    a.album.Some? && a.album.value != "" && a.album == b.album
  }

  /** One chat, one choice, and more than ten entries only for the rest of one album. */
  ghost predicate Coherent(entries: seq<Entry>) {
    && entries != []
    && (forall i :: 0 <= i < |entries| ==> entries[i].chat == entries[0].chat && entries[i].execution == entries[0].execution)
    && (forall i :: 10 <= i < |entries| ==>
          entries[i].album == entries[i - 1].album && entries[i].album != None && entries[i].album != Some(""))
  }

  /** A batch takes from the front all that belongs to it, and no more. */
  ghost predicate SealedFrom(before: seq<Entry>, entries: seq<Entry>, after: seq<Entry>) {
    && entries + after == before && Coherent(entries)
    && (after != [] && after[0].chat == entries[0].chat && after[0].execution == entries[0].execution ==>
          && |entries| >= 10
          && (after[0].album == entries[|entries| - 1].album ==> after[0].album == None || after[0].album == Some("")))
  }

  /** There is only one way to seal the front of the queue. */
  lemma SealIsUnique(before: seq<Entry>, e1: seq<Entry>, a1: seq<Entry>, e2: seq<Entry>, a2: seq<Entry>)
    requires SealedFrom(before, e1, a1) && SealedFrom(before, e2, a2)
    ensures e1 == e2 && a1 == a2
  {
    NotShorter(before, e1, a1, e2, a2);
    NotShorter(before, e2, a2, e1, a1);
    assert e1 == before[..|e1|] && e2 == before[..|e2|] && a1 == before[|e1|..] && a2 == before[|e2|..];
  }

  lemma NotShorter(before: seq<Entry>, e1: seq<Entry>, a1: seq<Entry>, e2: seq<Entry>, a2: seq<Entry>)
    requires SealedFrom(before, e1, a1) && SealedFrom(before, e2, a2)
    ensures |e1| >= |e2|
  {
    assert e1 == before[..|e1|] && e2 == before[..|e2|] && a1 == before[|e1|..];
  }

  /** What left the queue: a sealed batch, or updates dropped by a stop. */
  datatype Gone = Sealed(id: nat, entries: seq<Entry>) | Dropped(entries: seq<Entry>)

  function Flat(log: seq<Gone>): seq<Entry> {
    if log == [] then [] else Flat(log[..|log| - 1]) + log[|log| - 1].entries
  }

  function UpdateIds(entries: seq<Entry>): seq<nat> {
    seq(|entries|, i requires 0 <= i < |entries| => entries[i].updateId)
  }

  predicate WellSealed(g: Gone) {
    g.Sealed? ==> g.entries != [] && g.id == g.entries[0].updateId
  }

  lemma {:induction false} GoneIsAccepted(log: seq<Gone>, g: Gone, e: Entry)
    requires g in log && e in g.entries
    ensures e in Flat(log)
  {
    if g != log[|log| - 1] {
      var i :| 0 <= i < |log| && log[i] == g;
      assert log[..|log| - 1][i] == g;
      GoneIsAccepted(log[..|log| - 1], g, e);
    }
  }

  lemma {:induction false} AppendFlat(log: seq<Gone>, g: Gone)
    ensures Flat(log + [g]) == Flat(log) + g.entries
  {
    assert (log + [g])[..|log|] == log;
  }

  lemma NoRepeatsSplit(a: seq<nat>, b: seq<nat>)
    requires NoRepeats(a + b)
    ensures NoRepeats(a) && NoRepeats(b) && forall x :: x in a && x in b ==> false
  {
    var ab := a + b;
    assert forall i :: 0 <= i < |a| ==> ab[i] == a[i];
    assert forall j :: 0 <= j < |b| ==> ab[|a| + j] == b[j];
  }

  lemma UpdateIdsConcat(a: seq<Entry>, b: seq<Entry>)
    ensures UpdateIds(a + b) == UpdateIds(a) + UpdateIds(b)
  {
  }

  /** No update leaves the queue twice: it is in one batch at most. */
  lemma {:induction false} InOneBatch(log: seq<Gone>, i: nat, j: nat, x: nat)
    requires NoRepeats(UpdateIds(Flat(log))) && i < j < |log|
    ensures !(x in UpdateIds(log[i].entries) && x in UpdateIds(log[j].entries))
  {
    var init, last := log[..|log| - 1], log[|log| - 1];
    UpdateIdsConcat(Flat(init), last.entries);
    NoRepeatsSplit(UpdateIds(Flat(init)), UpdateIds(last.entries));
    if j < |log| - 1 {
      InOneBatch(init, i, j, x);
    } else if x in UpdateIds(log[i].entries) {
      var k :| 0 <= k < |log[i].entries| && UpdateIds(log[i].entries)[k] == x;
      assert init[i] == log[i] && log[i].entries[k] in log[i].entries;
      GoneIsAccepted(init, log[i], log[i].entries[k]);
      IdIsThere(Flat(init), log[i].entries[k]);
    }
  }

  lemma IdIsThere(entries: seq<Entry>, e: Entry)
    requires e in entries
    ensures e.updateId in UpdateIds(entries)
  {
    var i :| 0 <= i < |entries| && entries[i] == e;
    assert UpdateIds(entries)[i] == e.updateId;
  }

  /** No batch was ever sealed under this identifier. */
  lemma FreshBatchId(log: seq<Gone>, waiting: seq<Entry>, g: Gone)
    requires NoRepeats(UpdateIds(Flat(log) + waiting)) && waiting != [] && g in log && g.Sealed? && WellSealed(g)
    ensures g.id != waiting[0].updateId
  {
    UpdateIdsConcat(Flat(log), waiting);
    NoRepeatsSplit(UpdateIds(Flat(log)), UpdateIds(waiting));
    GoneIsAccepted(log, g, g.entries[0]);
    IdIsThere(Flat(log), g.entries[0]);
    IdIsThere(waiting, waiting[0]);
  }

  /** What is in the flattened log is in some entry of it. */
  lemma {:induction false} InSomeEntry(log: seq<Gone>, e: Entry) returns (i: nat)
    requires e in Flat(log)
    ensures i < |log| && e in log[i].entries
  {
    var init, last := log[..|log| - 1], log[|log| - 1];
    if e in last.entries {
      i := |log| - 1;
    } else {
      i := InSomeEntry(init, e);
    }
  }

  class InboxStore {
    var seen: seq<nat>
    var waiting: seq<Entry>
    var batches: seq<Batch>
    ghost var accepted: seq<Entry>
    ghost var log: seq<Gone>

    constructor ()
      ensures Valid() && accepted == [] && log == [] && waiting == [] && batches == []
    {
      seen, waiting, batches, accepted, log := [], [], [], [], [];
    }

    ghost predicate Valid()
      reads this
    {
      && seen == UpdateIds(accepted) && NoRepeats(seen)
      && Flat(log) + waiting == accepted && WellKept(log) && Known(batches, log)
    }

    /** Every accepted update waits, or is in exactly one batch or stop; none is anywhere twice. */
    lemma EveryUpdateOnce(e: Entry)
      requires Valid()
      ensures e in accepted <==> e in waiting || exists i :: 0 <= i < |log| && e in log[i].entries
      ensures forall i, j :: 0 <= i < |log| && 0 <= j < |log| && e in log[i].entries && e in log[j].entries ==> i == j
      ensures e in waiting ==> forall i :: 0 <= i < |log| ==> e !in log[i].entries
    {
      UpdateIdsConcat(Flat(log), waiting);
      NoRepeatsSplit(UpdateIds(Flat(log)), UpdateIds(waiting));
      if e in Flat(log) {
        var k := InSomeEntry(log, e);
      }
      forall i | 0 <= i < |log| && e in log[i].entries ensures e in Flat(log) && e.updateId in UpdateIds(Flat(log)) {
        GoneIsAccepted(log, log[i], e);
        IdIsThere(Flat(log), e);
      }
      if e in waiting {
        IdIsThere(waiting, e);
      }
      forall i, j | 0 <= i < j < |log| ensures !(e in log[i].entries && e in log[j].entries) {
        InOneBatch(log, i, j, e.updateId);
        if e in log[i].entries {
          IdIsThere(log[i].entries, e);
        }
        if e in log[j].entries {
          IdIsThere(log[j].entries, e);
        }
      }
    }

    /** Without a stop, what was sealed and what waits are the accepted updates in their order. */
    lemma SealedInOrder()
      requires Valid() && forall g :: g in log ==> g.Sealed?
      ensures Flat(log) + waiting == accepted && (forall g :: g in log ==> Coherent(g.entries) && g.id == g.entries[0].updateId)
      ensures forall i, j :: 0 <= i < j < |log| ==> log[i].id != log[j].id
    {
      UpdateIdsConcat(Flat(log), waiting);
      NoRepeatsSplit(UpdateIds(Flat(log)), UpdateIds(waiting));
      forall i, j | 0 <= i < j < |log| ensures log[i].id != log[j].id {
        assert log[i] in log && log[j] in log;
        InOneBatch(log, i, j, log[i].id);
        assert UpdateIds(log[i].entries)[0] == log[i].id && UpdateIds(log[j].entries)[0] == log[j].id;
      }
    }

    /** The next batch gets an identifier under which none was ever sealed. */
    lemma NextIdIsNew()
      requires Valid() && waiting != []
      ensures forall g :: g in log && g.Sealed? ==> g.id != waiting[0].updateId
    {
      forall g | g in log && g.Sealed? ensures g.id != waiting[0].updateId {
        FreshBatchId(log, waiting, g);
      }
    }

    /** An update is accepted the first time it arrives. */
    method Accept(e: Entry) returns (accept: bool)
      requires Valid()
      modifies this
      ensures Valid() && batches == old(batches) && log == old(log)
      ensures accept <==> e.updateId !in old(UpdateIds(accepted))
      ensures if accept then accepted == old(accepted) + [e] && waiting == old(waiting) + [e]
              else accepted == old(accepted) && waiting == old(waiting)
    {
      if e.updateId in seen {
        return false;
      }
      UpdateIdsConcat(accepted, [e]);
      seen := seen + [e.updateId];
      waiting := waiting + [e];
      accepted := accepted + [e];
      assert Flat(log) + waiting == accepted;
      return true;
    }

    predicate Ripe(force: bool, now: int)
      requires waiting != []
      reads this
    {
      var first, last := waiting[0], waiting[|waiting| - 1];
      || force
      || !((|waiting| < MOST || (last.album.Some? && last.album.value != "")) && now - last.receivedAt < 2000
         && now - first.receivedAt < 30000)
    }

    /** A queue is sealed when it is forced, full without an album at its end, quiet for two seconds, or half a minute old. */
    lemma RipeExactly(force: bool, now: int)
      requires waiting != []
      ensures Ripe(force, now) <==>
                || force
                || (|waiting| >= 10 && waiting[|waiting| - 1].album in {None, Some("")})
                || now >= waiting[|waiting| - 1].receivedAt + 2000
                || now >= waiting[0].receivedAt + 30000
    {
    }

    /** How far the front of the queue belongs to one batch. */
    method Measure() returns (n: nat)
      requires waiting != []
      ensures 0 < n <= |waiting| && SealedFrom(waiting, waiting[..n], waiting[n..])
    {
      n := 1;
      while n < |waiting| && n < MOST && Together(waiting[0], waiting[n])
        invariant 1 <= n <= |waiting| && n <= MOST
        invariant forall i :: 0 <= i < n ==> Together(waiting[0], waiting[i])
      {
        n := n + 1;
      }
      while n < |waiting| && SameAlbum(waiting[n - 1], waiting[n]) && Together(waiting[0], waiting[n])
        invariant 1 <= n <= |waiting| && (n < MOST && n < |waiting| ==> !Together(waiting[0], waiting[n]))
        invariant forall i :: 0 <= i < n ==> Together(waiting[0], waiting[i])
        invariant forall i :: MOST <= i < n ==> SameAlbum(waiting[i - 1], waiting[i])
      {
        n := n + 1;
      }
      assert waiting == waiting[..n] + waiting[n..];
      forall i | 10 <= i < n
        ensures waiting[..n][i].album == waiting[..n][i - 1].album && waiting[i].album != None && waiting[i].album != Some("")
      {
        assert SameAlbum(waiting[i - 1], waiting[i]);
      }
    }

    /** The batch to work on: one still pending, or one newly sealed when the queue is ripe. */
    method Next(force: bool, now: int) returns (r: Option<Batch>)
      requires Valid()
      modifies this
      ensures Valid() && accepted == old(accepted) && seen == old(seen)
      ensures r.Some? ==> r.value in batches && r.value.status.Pending?
      ensures (exists b :: b in old(batches) && b.status.Pending?) ==> r.Some? && r.value in old(batches)
      ensures r.None? || r.value in old(batches) ==> waiting == old(waiting) && batches == old(batches) && log == old(log)
      ensures r.Some? && r.value !in old(batches) ==>
                && old(waiting) != [] && old(Ripe(force, now)) && r.value.id == old(waiting)[0].updateId
                && SealedFrom(old(waiting), r.value.entries, waiting)
                && batches == old(batches) + [r.value] && log == old(log) + [Sealed(r.value.id, r.value.entries)]
      ensures r.None? ==> waiting == [] || !Ripe(force, now)
    {
      for i := 0 to |batches|
        invariant forall j :: 0 <= j < i ==> !batches[j].status.Pending?
      {
        if batches[i].status.Pending? {
          return Some(batches[i]);
        }
      }
      if waiting == [] || !Ripe(force, now) {
        return None;
      }
      var n := Measure();
      var batch := Batch(waiting[0].updateId, waiting[..n], Pending);
      Seal(batch, n);
      return Some(batch);
    }

    method Seal(batch: Batch, n: nat)
      requires Valid() && n <= |waiting| && SealedFrom(waiting, waiting[..n], waiting[n..])
      requires batch == Batch(waiting[0].updateId, waiting[..n], Pending)
      modifies this
      ensures Valid() && accepted == old(accepted) && seen == old(seen) && waiting == old(waiting)[n..]
      ensures batches == old(batches) + [batch] && log == old(log) + [Sealed(batch.id, batch.entries)]
      ensures batch !in old(batches)
    {
      SealKeeps(log, waiting, batches, batch, n);
      waiting := waiting[n..];
      batches := batches + [batch];
      log := log + [Sealed(batch.id, batch.entries)];
      assert Flat(log) + waiting == accepted;
    }

    /** A finished batch goes; a failed one is kept for a retry. */
    method Finish(id: nat, failed: bool)
      requires Valid()
      modifies this`batches
      ensures Valid()
      ensures !(exists b :: b in old(batches) && b.id == id && b.status.Pending?) ==> batches == old(batches)
      ensures (exists b :: b in old(batches) && b.id == id && b.status.Pending?) ==>
                if failed then batches == Marked(old(batches), id, Failed) else batches == Others(old(batches), id)
    {
      for i := 0 to |batches|
        invariant batches == old(batches) && forall j :: 0 <= j < i ==> batches[j].id != id || !batches[j].status.Pending?
      {
        if batches[i].id == id && batches[i].status.Pending? {
          MarkedKeeps(batches, log, id, Failed);
          OthersKeep(batches, log, id);
          assert batches[i] in batches;
          batches := if failed then Marked(batches, id, Failed) else Others(batches, id);
          return;
        }
      }
    }

    /** A stop drops what waits and cancels what is pending; the count is of all these updates. */
    method Cancel() returns (count: nat)
      requires Valid()
      modifies this
      ensures Valid() && accepted == old(accepted) && waiting == [] && log == old(log) + [Dropped(old(waiting))]
      ensures batches == Stopped(old(batches)) && count == |old(waiting)| + PendingEntries(old(batches))
    {
      AppendFlat(log, Dropped(waiting));
      StoppedKeeps(batches, log, Dropped(waiting));
      var stopped, entries := StopPending(batches);
      count := |waiting| + entries;
      log := log + [Dropped(waiting)];
      waiting := [];
      batches := stopped;
      assert Flat(log) + waiting == accepted;
    }

    /** The latest failed batch that is wholly the caller's is pending again. */
    method RetryLatest(own: Entry -> bool) returns (r: Option<nat>)
      requires Valid()
      modifies this`batches
      ensures Valid()
      ensures r.None? ==> batches == old(batches) && forall b :: b in batches && b.status == Failed ==>
              exists e :: e in b.entries && !own(e)
      ensures r.Some? ==> exists k :: 0 <= k < |old(batches)| && r.value == old(batches)[k].id
                            && old(batches)[k].status == Failed && (forall e :: e in old(batches)[k].entries ==> own(e))
                            && (forall j :: k < j < |old(batches)| ==> !Retriable(old(batches)[j], own))
                            && batches == old(batches)[k := old(batches)[k].(status := Pending)]
    {
      var i := |batches|;
      while i > 0
        invariant 0 <= i <= |batches| && batches == old(batches)
        invariant forall j :: i <= j < |batches| ==> !Retriable(batches[j], own)
      {
        i := i - 1;
        if Retriable(batches[i], own) {
          assert batches[i] in batches;
          var again := batches[i].(status := Pending);
          batches := batches[i := again];
          return Some(again.id);
        }
      }
      return None;
    }
  }

  method StopPending(batches: seq<Batch>) returns (stopped: seq<Batch>, count: nat)
    ensures stopped == Stopped(batches) && count == PendingEntries(batches)
  {
    stopped, count := [], 0;
    for i := 0 to |batches|
      invariant stopped == Stopped(batches[..i]) && count == PendingEntries(batches[..i])
    {
      assert batches[..i + 1][..i] == batches[..i];
      if batches[i].status.Pending? {
        count := count + |batches[i].entries|;
      }
      stopped := stopped + [if batches[i].status.Pending? then batches[i].(status := Cancelled) else batches[i]];
    }
    assert batches[..|batches|] == batches;
  }

  predicate Retriable(b: Batch, own: Entry -> bool) {
    b.status.Failed? && forall e :: e in b.entries ==> own(e)
  }

  function Marked(batches: seq<Batch>, id: nat, status: Status): (r: seq<Batch>)
    ensures |r| == |batches| && forall i :: 0 <= i < |r| ==>
            r[i] == if batches[i].id == id then batches[i].(status := status) else batches[i]
  {
    if batches == [] then []
    else [if batches[0].id == id then batches[0].(status := status) else batches[0]] + Marked(batches[1..], id, status)
  }

  function Others(batches: seq<Batch>, id: nat): seq<Batch> {
    Filter(batches, (b: Batch) => b.id != id)
  }

  function Stopped(batches: seq<Batch>): (r: seq<Batch>)
    ensures |r| == |batches|
    ensures forall i :: 0 <= i < |r| ==> r[i] == if batches[i].status.Pending? then batches[i].(status := Cancelled) else batches[i]
  {
    if batches == [] then []
    else
      var last := batches[|batches| - 1];
      Stopped(batches[..|batches| - 1]) + [if last.status.Pending? then last.(status := Cancelled) else last]
  }

  function PendingEntries(batches: seq<Batch>): nat {
    if batches == [] then 0
    else
      var last := batches[|batches| - 1];
      PendingEntries(batches[..|batches| - 1]) + if last.status.Pending? then |last.entries| else 0
  }

  /** The updates of the pending batches, one after another. */
  function OfPending(batches: seq<Batch>): seq<Entry> {
    if batches == [] then []
    else OfPending(batches[1..]) + if batches[0].status == Pending then batches[0].entries else []
  }

  lemma {:induction false} PendingAreCounted(batches: seq<Batch>)
    ensures PendingEntries(batches) == |OfPending(batches)|
  {
    if batches != [] {
      PendingAreCounted(batches[1..]);
      CountsFromTheFront(batches);
    }
  }

  lemma {:induction false} CountsFromTheFront(batches: seq<Batch>)
    requires batches != []
    ensures PendingEntries(batches) == PendingEntries(batches[1..]) + if batches[0].status.Pending? then |batches[0].entries| else 0
  {
    if |batches| > 1 {
      CountsFromTheFront(batches[..|batches| - 1]);
      assert batches[..|batches| - 1][1..] == batches[1..][..|batches| - 2];
    }
  }

  /** Every batch in the log is coherent and named by its first update. */
  ghost predicate WellKept(log: seq<Gone>) {
    forall g :: g in log ==> WellSealed(g) && (g.Sealed? ==> Coherent(g.entries))
  }

  /** Every batch at hand was sealed once, under an identifier of its own. */
  ghost predicate Known(batches: seq<Batch>, log: seq<Gone>) {
    && (forall b :: b in batches ==> Sealed(b.id, b.entries) in log)
    && (forall i, j :: 0 <= i < j < |batches| ==> batches[i].id != batches[j].id)
  }

  lemma SealKeeps(log: seq<Gone>, waiting: seq<Entry>, batches: seq<Batch>, batch: Batch, n: nat)
    requires NoRepeats(UpdateIds(Flat(log) + waiting)) && WellKept(log) && Known(batches, log)
    requires n <= |waiting| && SealedFrom(waiting, waiting[..n], waiting[n..])
             && batch == Batch(waiting[0].updateId, waiting[..n], Pending)
    ensures var more := log + [Sealed(batch.id, batch.entries)];
            WellKept(more) && Known(batches + [batch], more) && Flat(more) + waiting[n..] == Flat(log) + waiting
    ensures batch !in batches
  {
    forall b | b in batches ensures b.id != batch.id {
      FreshBatchId(log, waiting, Sealed(b.id, b.entries));
    }
    OneMoreKnown(log, batches, batch);
    FlatIsMoved(log, waiting, batch.id, n);
  }

  lemma FlatIsMoved(log: seq<Gone>, waiting: seq<Entry>, id: nat, n: nat)
    requires n <= |waiting|
    ensures Flat(log + [Sealed(id, waiting[..n])]) + waiting[n..] == Flat(log) + waiting
  {
    AppendFlat(log, Sealed(id, waiting[..n]));
    assert Flat(log) + waiting[..n] + waiting[n..] == Flat(log) + waiting;
  }

  lemma OneMoreKnown(log: seq<Gone>, batches: seq<Batch>, batch: Batch)
    requires WellKept(log) && Known(batches, log) && forall b :: b in batches ==> b.id != batch.id
    requires Coherent(batch.entries) && batch.id == batch.entries[0].updateId
    ensures var more := log + [Sealed(batch.id, batch.entries)]; WellKept(more) && Known(batches + [batch], more)
  {
  }

  lemma MarkedKeeps(batches: seq<Batch>, log: seq<Gone>, id: nat, status: Status)
    requires Known(batches, log)
    ensures Known(Marked(batches, id, status), log)
  {
    var marked := Marked(batches, id, status);
    forall b | b in marked ensures Sealed(b.id, b.entries) in log {
      var i :| 0 <= i < |marked| && marked[i] == b;
      assert batches[i] in batches;
    }
  }

  lemma {:induction false} OthersKeep(batches: seq<Batch>, log: seq<Gone>, id: nat)
    requires Known(batches, log)
    ensures Known(Others(batches, id), log) && forall b :: b in Others(batches, id) <==> b in batches && b.id != id
  {
    FilterMembers(batches, (b: Batch) => b.id != id);
    if batches != [] {
      OthersKeep(batches[1..], log, id);
      var rest := Others(batches[1..], id);
      if batches[0].id != id {
        assert Others(batches, id) == [batches[0]] + rest;
        forall j | 0 <= j < |rest| ensures rest[j].id != batches[0].id {
          assert rest[j] in batches[1..];
        }
      }
    }
  }

  lemma StoppedKeeps(batches: seq<Batch>, log: seq<Gone>, g: Gone)
    requires Known(batches, log)
    ensures Known(Stopped(batches), log + [g])
  {
    var stopped := Stopped(batches);
    forall b | b in stopped ensures Sealed(b.id, b.entries) in log + [g] {
      var i :| 0 <= i < |stopped| && stopped[i] == b;
      assert batches[i] in batches;
    }
  }
}
