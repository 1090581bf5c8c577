/**
 * Capturing the conversation and the setup of a message. The locked path binds, splits or titles
 * the active conversation; the unlocked one only answers when the locked one would change nothing.
 */
module Capture {
  import opened Options
  import opened Setups
  import opened Conversations

  datatype ExecutionChoice = ExecutionChoice(sessionId: string, preset: Preset, fallbacks: seq<Preset>)

  /** An empty conversation; with a preset, bound to its engine. */
  function Blank(id: string): Session {
    Session(id, false, None, None, None, None, false, None, None, false, [])
  }

  function Bind(x: Session, p: Preset): Session {
    x.(cli := Some(p.cli), authProfile := p.authProfile)
  }

  predicate OfEngine(x: Session, p: Preset) {
    SameEngine(x.cli, x.authProfile, p)
  }

  /** The settings a store begins with. */
  function WithAi(s: State, initial: Preset, recent: Option<seq<string>>): State {
    if s.ai.Some? then s else s.(ai := Some(Ai([initial], initial.id, initial.id, recent, [])))
  }

  lemma WithAiKeeps(s: State, initial: Preset, recent: Option<seq<string>>)
    requires Sound(s) && (recent.Some? ==> recent.value == [])
    ensures Sound(WithAi(s, initial, recent)) && Continues(s, WithAi(s, initial, recent))
            && Book(WithAi(s, initial, recent)) == Book(s)
  {
    assert s.ai.None? ==> HasId([initial], initial.id) by {
      assert initial in [initial];
    }
    SideKeeps(s, WithAi(s, initial, recent));
  }

  lemma SelectedExists(s: State)
    requires s.ai.Some? && IsAi(s.ai.value)
    ensures Selected(s).Some? && Selected(s).value in s.ai.value.presets && Selected(s).value.id == s.ai.value.selectedId
  {
    FindPresetFinds(s.ai.value.presets, s.ai.value.selectedId);
  }

  function Chosen(x: Session, s: State, p: Preset): ExecutionChoice {
    ExecutionChoice(x.id, p, if s.ai.None? then [] else Resolved(p, s.ai.value.fallbacks))
  }

  /** The active conversation, made if there is none, and bound if it was neither bound nor started. */
  function BoundActive(s: State, p: Preset, newId: string): Session {
    if s.active.None? then Bind(Blank(newId), p)
    else if s.active.value.cli.None? && !s.active.value.hasStarted then Bind(s.active.value, p)
    else s.active.value
  }

  /** A started conversation cannot follow its engine to another provider. */
  predicate Splits(x: Session, p: Preset) {
    OfEngine(x, p) && x.hasStarted && x.preset.Some? && PresetProvider(x.preset.value) != PresetProvider(p)
  }

  function Placed(s: State, p: Preset, newId: string): State {
    var x := BoundActive(s, p, newId);
    if Splits(x, p) then Opened(Retired(Opened(s, x)), Bind(Blank(newId), p).(preset := Some(p)))
    else if OfEngine(x, p) then Opened(s, x.(preset := Some(p)))
    else Opened(s, x)
  }

  predicate Untitled(x: Session) {
    (x.title.None? || x.title.value == "") && !x.hasStarted
  }

  function Titled(x: Session, title: string): Session {
    if Untitled(x) && title != "" then x.(title := Some(if |title| <= 80 then title else title[..80])) else x
  }

  /** The locked path on a state that has settings. `title` has its white space collapsed; empty when there is none. */
  function Captured(s: State, title: string, newId: string): State
    requires Selected(s).Some?
  {
    var placed := Placed(s, Selected(s).value, newId);
    Opened(placed, Titled(placed.active.value, title))
  }

  /** The guard of the unlocked path. */
  predicate Settled(s: State, title: string) {
    && Selected(s).Some? && s.active.Some?
    && var (x, p) := (s.active.value, Selected(s).value);
       && (x.cli.Some? || x.hasStarted) && !Splits(x, p)
       && (OfEngine(x, p) ==> x.preset == Some(p))
       && ((x.title.Some? && x.title.value != "") || x.hasStarted || title == "")
  }

  /** The unlocked path answers exactly when the locked one would change nothing, and says the same. */
  lemma FastPathIsExact(s: State, title: string, newId: string)
    requires Selected(s).Some? && Unused(s, newId)
    ensures Settled(s, title) <==> Captured(s, title, newId) == s
    ensures Settled(s, title) ==> Chosen(Captured(s, title, newId).active.value, Captured(s, title, newId), Selected(s).value)
                                  == Chosen(s.active.value, s, Selected(s).value)
  {
    if s.active.Some? {
      assert s.active.value in Book(s);
      if Splits(s.active.value, Selected(s).value) {
        assert Captured(s, title, newId).active.value.id == newId;
      } else {
        InPlaceExactly(s, title, newId);
      }
    }
  }

  lemma InPlaceExactly(s: State, title: string, newId: string)
    requires Selected(s).Some? && s.active.Some? && !Splits(s.active.value, Selected(s).value)
    ensures Settled(s, title) <==> Captured(s, title, newId) == s
  {
  }

  /** What a blank conversation is: unbound, not started, under its own identifier only. */
  lemma BlankIsFresh(id: string)
    ensures var x := Blank(id);
            && x.id == id && x.cli == None && x.authProfile == None && x.native == None && x.preset == None && x.title == None
            && x.scope == None && x.linked == [] && !x.hasStarted && !x.archived && !x.shared
  {
  }

  /**
   * A message stays in the active conversation unless that has started at another provider than the one
   * selected, for the same client and login; an unstarted one follows the selection instead.
   */
  lemma CapturedMeans(s: State, title: string, newId: string)
    requires Selected(s).Some? && Unused(s, newId)
    ensures var p, t := Selected(s).value, Captured(s, title, newId).active.value;
            && (t.id == newId <==>
                  || s.active == None
                  || (var x := s.active.value;
                      && x.cli == Some(p.cli) && x.authProfile == p.authProfile && x.hasStarted
                      && x.preset.Some? && PresetProvider(x.preset.value) != PresetProvider(p)))
            && (t.id != newId ==> t.id == s.active.value.id && t.hasStarted == s.active.value.hasStarted)
            && (t.cli == Some(p.cli) && t.authProfile == p.authProfile ==> t.preset == Some(p))
  {
    if s.active.Some? {
      assert s.active.value in Book(s);
      if Splits(s.active.value, Selected(s).value) {
        SplitMeans(s, title, newId);
      } else {
        KeptMeans(s, title, newId);
      }
    }
  }

  lemma SplitMeans(s: State, title: string, newId: string)
    requires Selected(s).Some? && s.active.Some? && Splits(s.active.value, Selected(s).value)
    ensures var p, t := Selected(s).value, Captured(s, title, newId).active.value;
            t.id == newId && t.cli == Some(p.cli) && t.authProfile == p.authProfile && t.preset == Some(p)
  {
  }

  lemma KeptMeans(s: State, title: string, newId: string)
    requires Selected(s).Some? && s.active.Some? && !Splits(s.active.value, Selected(s).value)
    ensures var p, x, t := Selected(s).value, s.active.value, Captured(s, title, newId).active.value;
            && t.id == x.id && t.hasStarted == x.hasStarted
            && (t.cli == Some(p.cli) && t.authProfile == p.authProfile ==> t.preset == Some(p))
  {
  }

  /** A conversation that is bound only now has no linked logins, so the binding is sound. */
  lemma BoundIsSound(s: State, p: Preset, newId: string)
    requires Sound(s)
    ensures SoundSession(BoundActive(s, p, newId))
    ensures s.active.Some? ==> Evolves(s.active.value, BoundActive(s, p, newId))
  {
    assert s.active.Some? ==> s.active.value in Book(s);
  }

  lemma PlacedKeeps(s: State, p: Preset, newId: string)
    requires Sound(s) && Unused(s, newId)
    ensures Transition(s, Placed(s, p, newId))
  {
    var x := BoundActive(s, p, newId);
    BoundIsSound(s, p, newId);
    if s.active.None? {
      OpenedKeeps(s, x.(preset := Some(p)));
    } else if Splits(x, p) {
      Succeeded(s, Bind(Blank(newId), p).(preset := Some(p)));
    } else {
      var y := if OfEngine(x, p) then x.(preset := Some(p)) else x;
      assert Placed(s, p, newId) == Opened(s, y) && SoundSession(y) && Evolves(s.active.value, y);
      EditActive(s, y);
    }
  }

  lemma TitledKeeps(s: State, title: string)
    requires Sound(s) && s.active.Some?
    ensures Transition(s, Opened(s, Titled(s.active.value, title)))
  {
    assert s.active.value in Book(s);
    EditActive(s, Titled(s.active.value, title));
  }

  lemma CapturedKeeps(s: State, title: string, newId: string)
    requires Sound(s) && Unused(s, newId) && Selected(s).Some?
    ensures Transition(s, Captured(s, title, newId))
  {
    var placed := Placed(s, Selected(s).value, newId);
    PlacedKeeps(s, Selected(s).value, newId);
    TitledKeeps(placed, title);
    Then(s, placed, Captured(s, title, newId));
  }

  /** What was captured once is settled: the same message again takes the unlocked path. */
  lemma CaptureSettles(s: State, title: string, newId: string)
    requires Selected(s).Some?
    ensures Settled(Captured(s, title, newId), title)
    ensures var x := Captured(s, title, newId).active.value; OfEngine(x, Selected(s).value) ==> x.preset == Selected(s)
  {
    assert Selected(Captured(s, title, newId)) == Selected(s);
  }

  /** The active conversation would be bound to an engine that serves it as a linked login already. */
  predicate BindsOntoLink(s: State) {
    && Selected(s).Some? && s.active.Some? && s.active.value.cli.None? && !s.active.value.hasStarted
    && exists l :: l in s.active.value.linked && SameEngine(Some(l.cli), l.authProfile, Selected(s).value)
  }

  /**
   * Readable states alone are not closed under capturing: from a readable state the locked path
   * writes a readable one exactly unless it binds the conversation onto one of its linked logins.
   */
  lemma ReadableAfterCaptureExactly(s: State, title: string, newId: string)
    requires IsState(s) && s.ai.Some? && Selected(s).Some?
    ensures IsState(Captured(s, title, newId)) <==> !BindsOntoLink(s)
  {
    var t, p := Captured(s, title, newId), Selected(s).value;
    var x := BoundActive(s, p, newId);
    assert t.active.value == Titled(Placed(s, p, newId).active.value, title);
    assert t.sessions == if Splits(x, p) then s.sessions + [x] else s.sessions;
    if BindsOntoLink(s) {
      assert !LinkedElsewhere(t.active.value);
    } else {
      assert IsSession(x);
      assert IsSession(Placed(s, p, newId).active.value);
    }
  }

  /** Such a state is readable: an unbound conversation with one linked login. */
  lemma CaptureCanWriteTheUnreadable(p: Preset, id: string, linkId: string, newId: string)
    ensures var x := Blank(id).(linked := [Linked(p.cli, p.authProfile, linkId, None, false)]);
            var s := State(None, Some(x), [], Some(Ai([p], p.id, p.id, Some([]), [])), map[]);
            IsState(s) && Selected(s) == Some(p) && !IsState(Captured(s, "", newId))
  {
    var x := Blank(id).(linked := [Linked(p.cli, p.authProfile, linkId, None, false)]);
    var s := State(None, Some(x), [], Some(Ai([p], p.id, p.id, Some([]), [])), map[]);
    assert p in [p] && x.linked[0] in x.linked;
    assert IsAi(s.ai.value) by {
      assert HasId([p], p.id);
    }
    ReadableAfterCaptureExactly(s, "", newId);
  }
}
