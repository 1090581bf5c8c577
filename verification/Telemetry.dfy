/** Tool counts of one attempt: each call once, by name and in total. */
module Telemetry {
  import opened Options

  datatype Stats = Stats(calls: nat, completed: nat, errors: nat, durationMs: nat)

  const ZERO := Stats(0, 0, 0, 0)

  datatype Tool = Tool(id: string, name: string, startedAt: Option<int>, endedAt: Option<int>, error: bool)

  const MAX_NAMES := 32
  const OTHER := "other"

  function Add(a: Stats, b: Stats): Stats {
    Stats(a.calls + b.calls, a.completed + b.completed, a.errors + b.errors, a.durationMs + b.durationMs)
  }

  /** What one call adds to a tally. */
  function OfCall(t: Tool): Stats {
    var measured := t.endedAt.Some? && t.startedAt.Some? && t.endedAt.value > t.startedAt.value;
    Stats(1, if t.endedAt.Some? then 1 else 0, if t.error then 1 else 0,
          if measured then t.endedAt.value - t.startedAt.value else 0)
  }

  /** One call counts once; as completed when it ended, as an error when it failed, and for as long as it is known to have lasted. */
  lemma CallsCount(t: Tool)
    ensures var s := OfCall(t);
            && s.calls == 1 && (s.completed == 1 <==> t.endedAt != None) && s.completed <= 1
            && (s.errors == 1 <==> t.error) && s.errors <= 1
            && (forall a, b :: t.startedAt == Some(a) && t.endedAt == Some(b) ==> s.durationMs == if a <= b then b - a else 0)
            && (t.startedAt == None || t.endedAt == None ==> s.durationMs == 0)
  {
  }

  type ByName = map<string, Stats>

  /**
   * The name a call is counted under. `inherited` are the names that every object of the language
   * knows already, so that a table seems to have an entry for them.
   */
  function CountedAs(byName: ByName, inherited: set<string>, name: string): string {
    if name in byName || name in inherited || |byName| < MAX_NAMES then name else OTHER
  }

  /** A call under an inherited name finds something else than an entry, and makes none. */
  function Tallied(byName: ByName, inherited: set<string>, t: Tool): ByName {
    var name := CountedAs(byName, inherited, t.name);
    if name in inherited then byName
    else byName[name := Add(if name in byName then byName[name] else ZERO, OfCall(t))]
  }

  function Tally(inherited: set<string>, tools: seq<Tool>): ByName {
    if tools == [] then map[] else Tallied(Tally(inherited, tools[..|tools| - 1]), inherited, tools[|tools| - 1])
  }

  function Total(tools: seq<Tool>): Stats {
    if tools == [] then ZERO else Add(Total(tools[..|tools| - 1]), OfCall(tools[|tools| - 1]))
  }

  /** The sum of the entries of a table. */
  ghost function Sum(byName: ByName): Stats
    decreases |byName|
  {
    if byName == map[] then ZERO
    else
      var name :| name in byName;
      Add(byName[name], Sum(byName - {name}))
  }

  lemma AddSwaps(a: Stats, b: Stats, c: Stats)
    ensures Add(a, Add(b, c)) == Add(b, Add(a, c)) && Add(Add(a, b), c) == Add(Add(a, c), b)
  {
  }

  lemma {:induction false} SumWith(byName: ByName, name: string)
    requires name in byName
    ensures Sum(byName) == Add(byName[name], Sum(byName - {name}))
    decreases |byName|
  {
    var first :| first in byName && Sum(byName) == Add(byName[first], Sum(byName - {first}));
    if first != name {
      var rest := byName - {first} - {name};
      SumWith(byName - {first}, name);
      SumWith(byName - {name}, first);
      assert rest == byName - {name} - {first};
      assert Sum(byName - {first}) == Add(byName[name], Sum(rest));
      assert Sum(byName - {name}) == Add(byName[first], Sum(rest));
      AddSwaps(byName[first], byName[name], Sum(rest));
    }
  }

  /** A table whose entry for one name is known, and the rest of it. */
  lemma SumSplit(byName: ByName, name: string, rest: ByName, entry: Stats)
    requires name !in rest && byName == rest[name := entry]
    ensures Sum(byName) == Add(entry, Sum(rest))
  {
    SumWith(byName, name);
    assert byName - {name} == rest;
  }

  lemma SameTable(byName: ByName, name: string, entry: Stats)
    ensures byName[name := entry] == (byName - {name})[name := entry]
    ensures name !in byName ==> byName - {name} == byName
    ensures name in byName ==> (byName - {name})[name := byName[name]] == byName
  {
  }

  lemma AddToSplit(before: Stats, more: Stats, rest: Stats)
    ensures Add(Add(before, more), rest) == Add(Add(before, rest), more) && Add(ZERO, rest) == rest
  {
  }

  lemma SumAfter(byName: ByName, name: string, more: Stats)
    ensures Sum(byName[name := Add(if name in byName then byName[name] else ZERO, more)]) == Add(Sum(byName), more)
  {
    var before := if name in byName then byName[name] else ZERO;
    var rest, after := byName - {name}, byName[name := Add(before, more)];
    SameTable(byName, name, Add(before, more));
    SumSplit(after, name, rest, Add(before, more));
    AddToSplit(before, more, Sum(rest));
    assert Sum(byName) == Add(before, Sum(rest)) by {
      if name in byName {
        SumSplit(byName, name, rest, before);
      }
    }
  }

  lemma TalliedSum(byName: ByName, inherited: set<string>, t: Tool)
    ensures var after := Tallied(byName, inherited, t);
            Sum(after) == if CountedAs(byName, inherited, t.name) in inherited then Sum(byName) else Add(Sum(byName), OfCall(t))
  {
    SumAfter(byName, CountedAs(byName, inherited, t.name), OfCall(t));
  }

  /** How many calls have a name that every object knows. */
  function Inherited(inherited: set<string>, tools: seq<Tool>): nat {
    if tools == [] then 0
    else Inherited(inherited, tools[..|tools| - 1]) + if tools[|tools| - 1].name in inherited then 1 else 0
  }

  lemma {:induction false} InheritedExactly(inherited: set<string>, tools: seq<Tool>)
    ensures Inherited(inherited, tools) == 0 <==> forall t :: t in tools ==> t.name !in inherited
  {
    if tools != [] {
      var init, last := tools[..|tools| - 1], tools[|tools| - 1];
      InheritedExactly(inherited, init);
      assert forall t :: t in tools <==> t in init || t == last;
    }
  }

  lemma {:induction false} SumAndTotal(inherited: set<string>, tools: seq<Tool>)
    requires OTHER !in inherited
    ensures Total(tools).calls == Sum(Tally(inherited, tools)).calls + Inherited(inherited, tools)
    ensures Inherited(inherited, tools) == 0 ==> Sum(Tally(inherited, tools)) == Total(tools)
  {
    if tools != [] {
      var init := tools[..|tools| - 1];
      SumAndTotal(inherited, init);
      TalliedSum(Tally(inherited, init), inherited, tools[|tools| - 1]);
    }
  }

  /** The totals are the sums of the entries exactly when no tool is called by an inherited name. */
  lemma TotalsAreSumsExactly(inherited: set<string>, tools: seq<Tool>)
    requires OTHER !in inherited
    ensures Sum(Tally(inherited, tools)) == Total(tools) <==> forall t :: t in tools ==> t.name !in inherited
  {
    SumAndTotal(inherited, tools);
    InheritedExactly(inherited, tools);
  }

  /** At most thirty-three names, and only the last of them may stand for several. */
  lemma {:induction false} NamesAreBounded(inherited: set<string>, tools: seq<Tool>)
    ensures |Tally(inherited, tools)| <= 33
    ensures |Tally(inherited, tools)| == 33 ==> "other" in Tally(inherited, tools)
  {
    if tools != [] {
      var before := Tally(inherited, tools[..|tools| - 1]);
      var after := Tally(inherited, tools);
      NamesAreBounded(inherited, tools[..|tools| - 1]);
      var name := CountedAs(before, inherited, tools[|tools| - 1].name);
      assert name !in inherited ==> after.Keys == before.Keys + {name};
    }
  }

  // ---------------------------------------------------------------- the observer's tools

  function At(tools: seq<Tool>, id: string): (k: nat)
    ensures k <= |tools| && (k < |tools| ==> tools[k].id == id) && forall i :: 0 <= i < k ==> tools[i].id != id
  {
    if tools == [] || tools[0].id == id then 0 else 1 + At(tools[1..], id)
  }

  ghost predicate OneEach(tools: seq<Tool>) {
    forall i, j :: 0 <= i < j < |tools| ==> tools[i].id != tools[j].id
  }

  /** A call is known by its identifier: repeated starts and ends of it change nothing. */
  class ToolObserver {
    var tools: seq<Tool>

    constructor ()
      ensures tools == [] && Valid()
    {
      tools := [];
    }

    ghost predicate Valid()
      reads this
    {
      OneEach(tools)
    }

    method Start(id: string, name: string, now: int)
      requires Valid()
      modifies this
      ensures Valid()
      ensures tools == if At(old(tools), id) < |old(tools)| then old(tools)
              else old(tools) + [Tool(id, name, Some(now), None, false)]
    {
      if At(tools, id) == |tools| {
        tools := tools + [Tool(id, name, Some(now), None, false)];
      }
    }

    method End(id: string, name: string, error: bool, now: int)
      requires Valid()
      modifies this
      ensures Valid()
      ensures var k := At(old(tools), id);
              if k == |old(tools)| then tools == old(tools) + [Tool(id, name, None, Some(now), error)]
              else if old(tools)[k].endedAt.Some? then tools == old(tools)
              else tools == old(tools)[k := old(tools)[k].(endedAt := Some(now), error := error)]
    {
      var k := At(tools, id);
      if k == |tools| {
        tools := tools + [Tool(id, name, None, Some(now), error)];
      } else if tools[k].endedAt.None? {
        tools := tools[k := tools[k].(endedAt := Some(now), error := error)];
      }
    }

    method Result(inherited: set<string>) returns (byName: ByName, totals: Stats)
      requires Valid() && OTHER !in inherited
      ensures byName == Tally(inherited, tools) && totals == Total(tools) && totals.calls == |tools|
      ensures |byName| <= MAX_NAMES + 1
    {
      byName, totals := map[], ZERO;
      for i := 0 to |tools|
        invariant byName == Tally(inherited, tools[..i]) && totals == Total(tools[..i]) && totals.calls == i
      {
        assert tools[..i + 1][..i] == tools[..i];
        var name := CountedAs(byName, inherited, tools[i].name);
        if name !in inherited {
          byName := byName[name := Add(if name in byName then byName[name] else ZERO, OfCall(tools[i]))];
        }
        totals := Add(totals, OfCall(tools[i]));
      }
      assert tools[..|tools|] == tools;
      NamesAreBounded(inherited, tools);
    }
  }
}
