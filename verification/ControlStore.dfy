/**
 * The store of the control state. Every method reads the saved state, edits it and saves it again;
 * each keeps the invariant, loses no conversation, and leaves the saved state alone when it refuses.
 */
module Control {
  import opened Options
  import opened Setups
  import opened QuotaHealth
  import opened Conversations
  import opened Capture
  import opened LinkedLogins
  import opened Presets

  // ---------------------------------------------------------------- guards

  /** A remote caller's authority: granted or not, from whom, for a scope of its own, and what it last saw. */
  datatype Guard = Guard(authorized: bool, owner: string, scope: Option<string>, expected: Option<Option<string>>)

  function IdOf(x: Option<Session>): Option<string> {
    if x.Some? then Some(x.value.id) else None
  }

  function FirstOfScope(sessions: seq<Session>, scope: string): Option<Session> {
    if sessions == [] then None
    else if sessions[0].scope == Some(scope) && !sessions[0].archived then Some(sessions[0])
    else FirstOfScope(sessions[1..], scope)
  }

  /** The conversation of an application scope that is not archived; the active one comes first. */
  function Current(s: State, scope: string): Option<Session> {
    FirstOfScope((if s.active.Some? then [s.active.value] else []) + s.sessions, scope)
  }

  predicate Shared(s: State, x: Session) {
    x.shared || s.active == Some(x)
  }

  predicate Expects(x: Option<Session>, expected: Option<Option<string>>) {
    expected.Some? ==> IdOf(x) == expected.value
  }

  predicate Passes(s: State, guard: Option<Guard>) {
    guard.Some? ==>
      && guard.value.authorized && s.owner == Some(guard.value.owner)
      && var current := if guard.value.scope.Some? then Current(s, guard.value.scope.value) else s.active;
         && (guard.value.scope.Some? && current.Some? ==> !Shared(s, current.value))
         && Expects(current, guard.value.expected)
  }

  lemma {:induction false} FirstOfScopeFinds(sessions: seq<Session>, scope: string)
    ensures var x := FirstOfScope(sessions, scope);
            && (x.Some? ==> x.value in sessions && x.value.scope == Some(scope) && !x.value.archived)
            && (x.None? ==> forall y :: y in sessions && y.scope == Some(scope) ==> y.archived)
  {
    if sessions != [] {
      FirstOfScopeFinds(sessions[1..], scope);
      assert forall y :: y in sessions <==> y == sessions[0] || y in sessions[1..];
    }
  }

  lemma CurrentIsFound(s: State, scope: string)
    requires Sound(s) && Current(s, scope).Some?
    ensures var x := Current(s, scope).value; x in Book(s) && Find(s, x.id) == Some(x) && x.scope == Some(scope) && !x.archived
  {
    var all := (if s.active.Some? then [s.active.value] else []) + s.sessions;
    FirstOfScopeFinds(all, scope);
    assert forall y :: y in all ==> y in Book(s);
    FindIsInBook(s, Current(s, scope).value.id);
  }

  /** A scope has no conversation exactly when all of its own are archived; the active one is taken first. */
  lemma CurrentExactly(s: State, scope: string)
    ensures Current(s, scope).None? <==> forall x :: x in Book(s) && x.scope == Some(scope) ==> x.archived
    ensures s.active.Some? && s.active.value.scope == Some(scope) && !s.active.value.archived ==> Current(s, scope) == s.active
  {
    var all := (if s.active.Some? then [s.active.value] else []) + s.sessions;
    FirstOfScopeFinds(all, scope);
    assert forall x :: x in all <==> x in Book(s);
  }

  /** What a granted caller last saw stands: nothing asked, or no conversation, or this one. */
  predicate Saw(guard: Guard, now: Option<string>) {
    guard.expected.None? || guard.expected.value == now
  }

  /** Without a scope the active conversation must be the one seen; within a scope its own one, neither shared nor active. */
  lemma PassesExactly(s: State, guard: Guard)
    requires Sound(s)
    ensures Passes(s, None)
    ensures guard.scope.None? ==>
              (Passes(s, Some(guard)) <==>
                guard.authorized && s.owner == Some(guard.owner)
                    && Saw(guard, if s.active.Some? then Some(s.active.value.id) else None))
    ensures guard.scope.Some? && Current(s, guard.scope.value).None? ==>
              (Passes(s, Some(guard)) <==> guard.authorized && s.owner == Some(guard.owner) && Saw(guard, None))
    ensures guard.scope.Some? && Current(s, guard.scope.value).Some? ==>
              var x := Current(s, guard.scope.value).value;
              (Passes(s, Some(guard)) <==>
                guard.authorized && s.owner == Some(guard.owner) && !x.shared && x in s.sessions && Saw(guard, Some(x.id)))
  {
    if guard.scope.Some? && Current(s, guard.scope.value).Some? {
      var x := Current(s, guard.scope.value).value;
      CurrentIsFound(s, guard.scope.value);
      if s.active == Some(x) && x in s.sessions {
        NoDuplicate(s, x, x);
        assert Book(s)[x] >= 2;
      }
    }
  }

  // ---------------------------------------------------------------- compound edits

  /** The presets name this one latest, and it is the selected one. */
  function WithSelected(s: State, p: Preset): State
    requires s.ai.Some?
  {
    s.(ai := Some(s.ai.value.(presets := Latest(s.ai.value.presets, p), selectedId := p.id)))
  }

  function DefaultSelected(s: State): State {
    if s.ai.None? then s else s.(ai := Some(s.ai.value.(selectedId := s.ai.value.defaultId)))
  }

  function DefaultPreset(s: State): Option<Preset> {
    if s.ai.None? then None else FindPreset(s.ai.value.presets, s.ai.value.defaultId)
  }

  lemma WithSelectedKeeps(s: State, p: Preset)
    requires Sound(s) && s.ai.Some?
    ensures Transition(s, WithSelected(s, p))
  {
    LatestKeeps(s.ai.value.presets, p);
    SideKeeps(s, WithSelected(s, p));
  }

  lemma {:induction false} FindLast(presets: seq<Preset>, p: Preset)
    ensures FindPreset(Latest(presets, p), p.id) == Some(p)
  {
    if presets != [] {
      FindLast(presets[1..], p);
      if presets[0].id != p.id {
        assert Latest(presets, p) == [presets[0]] + Latest(presets[1..], p);
      } else {
        assert Latest(presets, p) == Latest(presets[1..], p);
      }
    }
  }

  lemma WithSelectedSelects(s: State, p: Preset)
    requires s.ai.Some?
    ensures Selected(WithSelected(s, p)) == Some(p)
  {
    FindLast(s.ai.value.presets, p);
  }

  lemma DefaultSelectedKeeps(s: State)
    requires Sound(s)
    ensures Transition(s, DefaultSelected(s))
  {
    SideKeeps(s, DefaultSelected(s));
  }

  lemma Stays(s: State)
    requires Sound(s)
    ensures Transition(s, s)
  {
    SideKeeps(s, s);
  }

  /** An edit of one conversation, as a transition. */
  lemma Edit(s: State, was: Session, x: Session)
    requires Sound(s) && Find(s, x.id) == Some(was) && SoundSession(x) && Evolves(was, x)
    ensures Transition(s, Put(s, x)) && Find(Put(s, x), x.id) == Some(x)
  {
    PutKeeps(s, x);
    PutBook(s, x);
  }

  lemma FoundIsSound(s: State, id: string)
    requires Sound(s) && Find(s, id).Some?
    ensures SoundSession(Find(s, id).value) && Find(s, id).value.id == id
  {
    FindIsInBook(s, id);
  }

  /** The preset under which a saved conversation is resumed. */
  function FindEngine(presets: seq<Preset>, x: Session): Option<Preset> {
    if presets == [] then None else if OfEngine(x, presets[0]) then Some(presets[0]) else FindEngine(presets[1..], x)
  }

  function ResumePreset(s: State, x: Session): Option<Preset> {
    if x.preset.Some? then x.preset else if s.ai.None? then None else FindEngine(s.ai.value.presets, x)
  }

  /** A native session a resumed client needs is missing. */
  predicate LacksNative(x: Session) {
    x.hasStarted && x.cli.Some? && Reports(x.cli.value) && x.native.None?
  }

  predicate Resumable(s: State, x: Session, effortOk: Preset -> bool) {
    && !x.archived && (x.scope.None? || x.shared) && s.ai.Some?
    && ResumePreset(s, x).Some? && OfEngine(x, ResumePreset(s, x).value) && !LacksNative(x) && effortOk(ResumePreset(s, x).value)
  }

  /** A saved conversation is resumed exactly under a usable preset of its client and login: its own, or a stored one. */
  lemma {:induction false} EngineIsFound(presets: seq<Preset>, x: Session)
    ensures var p := FindEngine(presets, x);
            && (p.Some? ==> p.value in presets && x.cli == Some(p.value.cli) && x.authProfile == p.value.authProfile)
            && (p.None? ==> forall q :: q in presets ==> x.cli != Some(q.cli) || x.authProfile != q.authProfile)
  {
    if presets != [] {
      EngineIsFound(presets[1..], x);
      assert forall q :: q in presets <==> q == presets[0] || q in presets[1..];
    }
  }

  lemma ResumableExactly(s: State, x: Session, effortOk: Preset -> bool)
    ensures Resumable(s, x, effortOk) <==>
              && !x.archived && (x.scope.Some? ==> x.shared) && s.ai.Some?
              && (x.hasStarted && x.cli in {Some(Codex), Some(CodexGui), Some(Opencode)} ==> x.native.Some?)
              && ResumePreset(s, x).Some?
              && var p := ResumePreset(s, x).value; x.cli == Some(p.cli) && x.authProfile == p.authProfile && effortOk(p)
    ensures x.preset.Some? ==> ResumePreset(s, x) == x.preset
    ensures x.preset.None? && s.ai.Some? ==>
              (ResumePreset(s, x).Some? <==>
                exists p :: p in s.ai.value.presets && x.cli == Some(p.cli) && x.authProfile == p.authProfile)
  {
    if x.preset.None? && s.ai.Some? {
      EngineIsFound(s.ai.value.presets, x);
    }
  }

  /** The active conversation is remembered and saved, the other one resumed under its preset. */
  function Resumed(s: State, x: Session, p: Preset): State
    requires s.ai.Some?
  {
    WithSelected(Swapped(Remembered(s), x), p)
  }

  lemma ResumedKeeps(s: State, x: Session, p: Preset)
    requires Sound(s) && s.ai.Some? && x in s.sessions
    ensures Transition(s, Resumed(s, x, p))
  {
    RememberedKeeps(s);
    SwappedKeeps(Remembered(s), x);
    Then(s, Remembered(s), Swapped(Remembered(s), x));
    WithSelectedKeeps(Swapped(Remembered(s), x), p);
    Then(s, Swapped(Remembered(s), x), Resumed(s, x, p));
  }

  /** The resumed conversation is active under its preset, the former one is saved, and no other place changed. */
  lemma ResumedMeans(s: State, x: Session, p: Preset)
    requires s.ai.Some?
    ensures var t := Resumed(s, x, p);
            && t.active == Some(x) && Selected(t) == Some(p)
            && t.sessions == Without(s.sessions, x.id) + if s.active.Some? then [Remembered(s).active.value] else []
  {
    WithSelectedSelects(Swapped(Remembered(s), x), p);
  }

  /** The active conversation is remembered, saved and followed by a new one. */
  function Followed(s: State, x: Session): State {
    Opened(Retired(Remembered(s)), x)
  }

  lemma FollowedKeeps(s: State, x: Session)
    requires Sound(s) && SoundSession(x) && Unused(s, x.id)
    ensures Transition(s, Followed(s, x))
  {
    RememberedKeeps(s);
    Succeeded(Remembered(s), x);
    Then(s, Remembered(s), Followed(s, x));
  }

  /** The active conversation is remembered and filed among the archived ones. */
  function Filed(s: State): State
    requires s.active.Some?
  {
    var r := Remembered(s);
    DefaultSelected(Retired(Opened(r, r.active.value.(archived := true))))
  }

  /** Nothing is active any more, the filed conversation is the latest saved one, and the default is selected. */
  lemma FiledMeans(s: State)
    requires s.active.Some?
    ensures var t := Filed(s);
            && t.active.None? && |t.sessions| == |s.sessions| + 1 && t.sessions[..|s.sessions|] == s.sessions
            && t.sessions[|s.sessions|].id == s.active.value.id && t.sessions[|s.sessions|].archived
            && (t.ai.Some? ==> t.ai.value.selectedId == t.ai.value.defaultId)
  {
  }

  lemma FiledKeeps(s: State)
    requires Sound(s) && s.active.Some?
    ensures Transition(s, Filed(s))
  {
    var r := Remembered(s);
    var x := r.active.value.(archived := true);
    RememberedKeeps(s);
    assert r.active.value in Book(r);
    EditActive(r, x);
    Then(s, r, Opened(r, x));
    RetiredKeeps(Opened(r, x));
    Then(s, Opened(r, x), Retired(Opened(r, x)));
    DefaultSelectedKeeps(Retired(Opened(r, x)));
    Then(s, Retired(Opened(r, x)), Filed(s));
  }

  /** An application's conversation is offered in the owner's chats and becomes the active one. */
  function Activated(s: State, x: Session): State
    requires s.ai.Some? && x.preset.Some?
  {
    var y := x.(shared := true, archived := false);
    var put := Put(s, y);
    WithSelected(if s.active.Some? && s.active.value.id == x.id then put else Swapped(put, y), x.preset.value)
  }

  lemma ActivatedKeeps(s: State, x: Session)
    requires Sound(s) && s.ai.Some? && x.preset.Some? && Find(s, x.id) == Some(x)
    ensures Transition(s, Activated(s, x)) && Activated(s, x).active == Some(x.(shared := true, archived := false))
  {
    var y := x.(shared := true, archived := false);
    var put := Put(s, y);
    FoundIsSound(s, x.id);
    Edit(s, x, y);
    if s.active.Some? && s.active.value.id == x.id {
      WithSelectedKeeps(put, x.preset.value);
      Then(s, put, Activated(s, x));
    } else {
      NotFound(put.sessions, y.id);
      SwappedKeeps(put, y);
      Then(s, put, Swapped(put, y));
      WithSelectedKeeps(Swapped(put, y), x.preset.value);
      Then(s, Swapped(put, y), Activated(s, x));
    }
  }

  /** A conversation for an application scope, kept beside the owner's own. */
  lemma AddedKeeps(s: State, x: Session)
    requires Sound(s) && SoundSession(x) && Unused(s, x.id)
    ensures var t := s.(sessions := s.sessions + [x]);
            Transition(s, t) && Find(t, x.id) == Some(x)
  {
    var t := s.(sessions := s.sessions + [x]);
    assert Book(t) == Book(s) + multiset{x};
    AddToBook(Book(s), x);
    FindIsInBook(s, x.id);
    FoundAtEnd(s.sessions, x);
  }

  lemma {:induction false} FoundAtEnd(sessions: seq<Session>, x: Session)
    requires FindIn(sessions, x.id).None?
    ensures FindIn(sessions + [x], x.id) == Some(x)
  {
    if sessions != [] {
      assert (sessions + [x])[1..] == sessions[1..] + [x];
      FoundAtEnd(sessions[1..], x);
    }
  }

  // ---------------------------------------------------------------- whole methods, from the stored state on

  lemma StoredEdit(s: State, x: Session)
    requires Sound(s) && Find(s, x.id).Some? && (SoundSession(Find(s, x.id).value) ==> SoundSession(x))
             && Evolves(Find(s, x.id).value, x)
    ensures Transition(s, Put(Read(s), x)) && Find(Put(Read(s), x), x.id) == Some(x)
  {
    ReadKeeps(s);
    FoundIsSound(Read(s), x.id);
    Edit(Read(s), Find(s, x.id).value, x);
    Then(s, Read(s), Put(Read(s), x));
  }

  lemma StoredFiling(s: State)
    requires Sound(s) && s.active.Some?
    ensures Transition(s, Filed(Read(s)))
  {
    ReadKeeps(s);
    FiledKeeps(Read(s));
    Then(s, Read(s), Filed(Read(s)));
  }

  lemma StoredResuming(s: State, x: Session, p: Preset)
    requires Sound(s) && s.ai.Some? && FindIn(s.sessions, x.id) == Some(x)
    ensures Transition(s, Resumed(Read(s), x, p))
  {
    ReadKeeps(s);
    NotFound(s.sessions, x.id);
    ResumedKeeps(Read(s), x, p);
    Then(s, Read(s), Resumed(Read(s), x, p));
  }

  lemma StoredFollowing(s: State, x: Session)
    requires Sound(s) && SoundSession(x) && Unused(s, x.id)
    ensures Transition(s, Followed(Read(s), x)) && Transition(s, DefaultSelected(Followed(Read(s), x)))
  {
    ReadKeeps(s);
    FollowedKeeps(Read(s), x);
    Then(s, Read(s), Followed(Read(s), x));
    DefaultSelectedKeeps(Followed(Read(s), x));
    Then(s, Followed(Read(s), x), DefaultSelected(Followed(Read(s), x)));
  }

  lemma FoundHasId(sessions: seq<Session>, id: string)
    ensures FindIn(sessions, id).Some? ==> FindIn(sessions, id).value.id == id
  {
    NotFound(sessions, id);
  }

  lemma FindHasId(s: State, id: string)
    ensures Find(s, id).Some? ==> Find(s, id).value.id == id
  {
    FoundHasId(s.sessions, id);
  }

  lemma StoredWithAi(s: State, initial: Preset, recent: Option<seq<string>>)
    requires Sound(s) && (recent.Some? ==> recent.value == [])
    ensures var t := WithAi(Read(s), initial, recent); Transition(s, t) && Book(t) == Book(s) && Selected(t).Some?
  {
    ReadKeeps(s);
    WithAiKeeps(Read(s), initial, recent);
    Then(s, Read(s), WithAi(Read(s), initial, recent));
    SelectedExists(WithAi(Read(s), initial, recent));
  }

  /** The first discovered preset of the same client; the initial one for Codex, or when there is none. */
  ghost predicate FirstOfClient(initial: Preset, discovered: seq<Preset>, first: Preset) {
    if initial.cli.Codex? || initial.cli.CodexGui? || (forall p :: p in discovered ==> p.cli != initial.cli) then first == initial
    else exists i :: 0 <= i < |discovered| && discovered[i] == first && first.cli == initial.cli
                     && forall j :: 0 <= j < i ==> discovered[j].cli != initial.cli
  }

  /** New settings beside the same conversations. */
  lemma StoredSettings(s: State, ai: Ai)
    requires Sound(s) && SoundAi(Some(ai))
    ensures Transition(s, s.(ai := Some(ai)))
  {
    SideKeeps(s, s.(ai := Some(ai)));
  }

  /** New settings of the shape a reader accepts keep the state readable and its conversations. */
  lemma SettingsAreReadable(s: State, t: State, ai: Ai)
    requires Transition(s, t) && IsAi(ai)
    ensures IsState(t.(ai := Some(ai))) && Continues(s, t.(ai := Some(ai)))
    ensures Sound(t.(ai := Some(ai))) <==> SavedApart(ai.presets)
  {
    SoundIsReadable(t);
    assert Book(t.(ai := Some(ai))) == Book(t);
  }

  lemma StoredHealth(s: State, health: SetupHealth)
    requires Sound(s) && ValidRecord(health)
    ensures Transition(s, Read(s).(health := health))
  {
    ReadKeeps(s);
    SideKeeps(s, Read(s).(health := health));
  }

  // ---------------------------------------------------------------- application conversations

  /** The application's conversation may take the requested setup, which is of its engine. */
  function Requested(x: Session, requested: Option<Preset>): Session {
    if requested.Some? then x.(preset := requested) else x
  }

  function ForScope(p: Preset, scope: string, newId: string): Session {
    Bind(Blank(newId), p).(preset := Some(p), scope := Some(scope))
  }

  function Added(s: State, x: Session): State {
    s.(sessions := s.sessions + [x])
  }

  lemma KnownApplication(s: State, t: State, scope: string, requested: Option<Preset>)
    requires Sound(s) && Transition(s, t) && t.ai.Some? && Current(t, scope).Some? && Current(t, scope).value.preset.Some?
    requires requested.Some? ==> OfEngine(Current(t, scope).value, requested.value)
    ensures var x := Requested(Current(t, scope).value, requested);
            && x.preset.Some? && OfEngine(x, x.preset.value) && x.scope == Some(scope)
            && Transition(s, Put(t, x)) && Transition(s, Activated(Put(t, x), x)) && Find(Put(t, x), x.id) == Some(x)
  {
    var was := Current(t, scope).value;
    var x := Requested(was, requested);
    CurrentIsFound(t, scope);
    Edit(t, was, x);
    Then(s, t, Put(t, x));
    ActivatedKeeps(Put(t, x), x);
    Then(s, Put(t, x), Activated(Put(t, x), x));
  }

  lemma NewApplication(s: State, t: State, scope: string, p: Preset, newId: string)
    requires Sound(s) && Transition(s, t) && t.ai.Some? && Unused(t, newId)
    ensures var x := ForScope(p, scope, newId);
            Transition(s, Added(t, x)) && Transition(s, Activated(Added(t, x), x))
  {
    var x := ForScope(p, scope, newId);
    AddedKeeps(t, x);
    Then(s, t, Added(t, x));
    ActivatedKeeps(Added(t, x), x);
    Then(s, Added(t, x), Activated(Added(t, x), x));
  }

  /** The scope's conversation is filed; admitted work still finds it by its identifier. */
  function ScopeRetired(s: State, scope: string): State {
    if Current(s, scope).Some? then Put(s, Current(s, scope).value.(archived := true)) else s
  }

  lemma ScopeRetiredKeeps(s: State, scope: string)
    requires Sound(s)
    ensures Transition(s, ScopeRetired(s, scope)) && forall id :: Unused(s, id) ==> Unused(ScopeRetired(s, scope), id)
  {
    if Current(s, scope).Some? {
      var x := Current(s, scope).value;
      CurrentIsFound(s, scope);
      Edit(s, x, x.(archived := true));
      PutBook(s, x.(archived := true));
    } else {
      Stays(s);
    }
  }

  lemma StoredScopeChange(s: State, scope: string, p: Preset, newId: string)
    requires Sound(s) && Unused(s, newId)
    ensures Transition(s, Added(ScopeRetired(Read(s), scope), ForScope(p, scope, newId)))
  {
    ReadKeeps(s);
    ScopeRetiredKeeps(Read(s), scope);
    AddedKeeps(ScopeRetired(Read(s), scope), ForScope(p, scope, newId));
    Then(s, Read(s), ScopeRetired(Read(s), scope));
    Then(s, ScopeRetired(Read(s), scope), Added(ScopeRetired(Read(s), scope), ForScope(p, scope, newId)));
  }

  // ---------------------------------------------------------------- choosing a preset

  /** Whether a choice needs the caller's word that a new conversation is meant. */
  predicate NeedsFresh(s: State, current: Preset, p: Preset) {
    s.active.Some? && (!SameEngine(Some(current.cli), current.authProfile, p)
        || PresetProvider(current) != PresetProvider(p) || s.active.value.cli.None?)
  }

  function Followable(x: Session, p: Preset): Session {
    if OfEngine(x, p) && (x.preset.None? || PresetProvider(x.preset.value) == PresetProvider(p)) then x.(preset := Some(p)) else x
  }

  /** The chosen setup in force: in a new conversation, or in the active one when it can follow. */
  function Picked(s: State, p: Preset, startNew: bool, newId: string): State
    requires s.ai.Some?
  {
    var placed := if startNew || s.active.None? then Followed(s, Bind(Blank(newId), p).(preset := Some(p))) else s;
    Named(Opened(placed, Followable(placed.active.value, p)), p.id)
  }

  lemma FollowableKeeps(s: State, p: Preset)
    requires Sound(s) && s.active.Some?
    ensures Transition(s, Opened(s, Followable(s.active.value, p)))
  {
    assert s.active.value in Book(s);
    EditActive(s, Followable(s.active.value, p));
  }

  /** The chosen identifier is selected and first among the recent ones. */
  function Named(s: State, id: string): State
    requires s.ai.Some?
  {
    s.(ai := Some(s.ai.value.(selectedId := id, recentIds := Some(RecentFirst(id, s.ai.value.recentIds.GetOr([]))))))
  }

  lemma NamedKeeps(s: State, p: Preset)
    requires Sound(s) && s.ai.Some? && p in s.ai.value.presets
    ensures Transition(s, Named(s, p.id))
  {
    RecentFirstKeeps(p.id, s.ai.value.recentIds.GetOr([]));
    StoredSettings(s, Named(s, p.id).ai.value);
  }

  lemma PickedKeeps(s: State, p: Preset, startNew: bool, newId: string)
    requires Sound(s) && s.ai.Some? && p in s.ai.value.presets && Unused(s, newId)
    ensures Transition(s, Picked(s, p, startNew, newId))
  {
    var x := Bind(Blank(newId), p).(preset := Some(p));
    var placed := if startNew || s.active.None? then Followed(s, x) else s;
    if startNew || s.active.None? {
      FollowedKeeps(s, x);
    } else {
      Stays(s);
    }
    var kept := Opened(placed, Followable(placed.active.value, p));
    FollowableKeeps(placed, p);
    NamedKeeps(kept, p);
    Then(s, placed, kept);
    Then(s, kept, Named(kept, p.id));
  }

  /** A new conversation only when asked for or when there was none; the choice is selected and first among the recent. */
  lemma PickedMeans(s: State, p: Preset, startNew: bool, newId: string)
    requires s.ai.Some? && FindPreset(s.ai.value.presets, p.id) == Some(p)
    ensures var t := Picked(s, p, startNew, newId);
            && Selected(t) == Some(p) && t.ai.value.recentIds.Some? && |t.ai.value.recentIds.value| > 0
               && t.ai.value.recentIds.value[0] == p.id
            && (if startNew || s.active.None? then t.active == Some(Bind(Blank(newId), p).(preset := Some(p)))
                else
                  && t.sessions == s.sessions
                  && t.active == Some(if Follows(s.active.value, p) then s.active.value.(preset := Some(p)) else s.active.value))
  {
  }

  /** A conversation can follow to a setup of its client, its login and its provider. */
  predicate Follows(x: Session, p: Preset) {
    && x.cli == Some(p.cli) && x.authProfile == p.authProfile
    && (x.preset.Some? ==> PresetProvider(x.preset.value) == PresetProvider(p))
  }

  /**
   * The caller is asked exactly when the active conversation, standing at the former choice, cannot
   * follow; an unbound one never can.
   */
  lemma AsksExactly(s: State, current: Preset, p: Preset)
    ensures s.active.None? ==> !NeedsFresh(s, current, p)
    ensures s.active.Some? && s.active.value.cli.None? ==> NeedsFresh(s, current, p)
    ensures s.active.Some? && s.active.value.cli == Some(current.cli) && s.active.value.authProfile == current.authProfile
            && s.active.value.preset == Some(current) ==>
              (NeedsFresh(s, current, p) <==> !Follows(s.active.value, p))
    ensures s.active.Some? && s.active.value.cli.Some? ==>
              (NeedsFresh(s, current, p) <==>
                p.cli != current.cli || p.authProfile != current.authProfile || PresetProvider(p) != PresetProvider(current))
  {
  }

  lemma StoredPick(s: State, id: string, startNew: bool, newId: string)
    requires Sound(s) && s.ai.Some? && FindPreset(s.ai.value.presets, id).Some? && Unused(s, newId)
    ensures Transition(s, Picked(Read(s), FindPreset(s.ai.value.presets, id).value, startNew, newId))
  {
    var p := FindPreset(s.ai.value.presets, id).value;
    ReadKeeps(s);
    FindPresetFinds(s.ai.value.presets, id);
    PickedKeeps(Read(s), p, startNew, newId);
    Then(s, Read(s), Picked(Read(s), p, startNew, newId));
  }

  predicate ValidChain(chain: seq<Preset>, effortOk: Preset -> bool) {
    && 0 < |chain| <= 12
    && (forall i, j :: 0 <= i < j < |chain| ==> chain[i].id != chain[j].id)
    && (forall p :: p in chain ==> effortOk(p))
  }

  /** What an owner's retry forgets of the named logins. */
  function Forgiven(h: Health): Health {
    h.(resetAt := None, retryAt := None, quotaFailures := None, manualRetry := false)
  }

  /** The engine's own session as a launch uses it. */
  datatype NativeSession = NativeSession(sessionId: string, native: Option<string>, hasStarted: bool)

  class ControlStore {
    var saved: State
    const effortOk: Preset -> bool

    constructor (effortOk: Preset -> bool)
      ensures Sound(saved) && saved == State(None, None, [], None, map[]) && this.effortOk == effortOk
    {
      saved := State(None, None, [], None, map[]);
      this.effortOk := effortOk;
    }

    // -------------------------------------------------------------- conversations

    method EnsureActiveSession(newId: string) returns (x: Session)
      requires Sound(saved) && Unused(saved, newId)
      modifies this
      ensures Transition(old(saved), saved) && saved.active == Some(x)
      ensures saved == if old(saved).active.Some? then old(saved) else Opened(Read(old(saved)), Blank(newId))
    {
      Stays(saved);
      ReadKeeps(saved);
      var state := Read(saved);
      if state.active.Some? {
        return state.active.value;
      }
      OpenedKeeps(state, Blank(newId));
      Then(saved, state, Opened(state, Blank(newId)));
      state := state.(active := Some(Blank(newId)));
      saved := state;
      return state.active.value;
    }

    method MarkSessionStarted(id: string)
      requires Sound(saved)
      modifies this
      ensures Transition(old(saved), saved)
      ensures var found := Find(Read(old(saved)), id);
              saved == if found.None? then old(saved) else Put(Read(old(saved)), found.value.(hasStarted := true))
    {
      Stays(saved);
      FindHasId(saved, id);
      var state := Read(saved);
      var found := Find(state, id);
      if found.Some? {
        StoredEdit(saved, found.value.(hasStarted := true));
        saved := Put(state, found.value.(hasStarted := true));
      }
    }

    /** A saved conversation becomes the active one, under the preset it ran with. */
    method SwitchSession(id: string, expected: Option<Option<string>>, guard: Option<Guard>) returns (r: Result<Session>)
      requires Sound(saved)
      modifies this
      ensures Transition(old(saved), saved)
      ensures var s := Read(old(saved));
              && (r.Ok? <==> Passes(s, guard) && Expects(s.active, expected)
                             && (IdOf(s.active) == Some(id)
                                 || (FindIn(s.sessions, id).Some?
                                     && Resumable(s, FindIn(s.sessions, id).value, effortOk))))
              && (r.Ok? ==> r.value.id == id && saved.active == Some(r.value))
              && (if r.Ok? && IdOf(s.active) != Some(id)
                  then Some(r.value) == FindIn(s.sessions, id) && saved == Resumed(s, r.value, ResumePreset(s, r.value).value)
                  else saved == old(saved))
    {
      Stays(saved);
      var state := Read(saved);
      if !Passes(state, guard) || !Expects(state.active, expected) {
        return Refused;
      }
      if state.active.Some? && state.active.value.id == id {
        return Ok(state.active.value);
      }
      var found := FindIn(state.sessions, id);
      if found.None? || !Resumable(state, found.value, effortOk) {
        return Refused;
      }
      var x, p := found.value, ResumePreset(state, found.value).value;
      FoundHasId(state.sessions, id);
      StoredResuming(saved, x, p);
      state := Remembered(state);
      state := state.(sessions := Without(state.sessions, id));
      if state.active.Some? {
        state := state.(sessions := state.sessions + [state.active.value]);
      }
      state := state.(active := Some(x));
      saved := state.(ai := Some(state.ai.value.(presets := WithoutPreset(state.ai.value.presets, p.id) + [p],
          selectedId := p.id)));
      return Ok(x);
    }

    method ArchiveSession(id: string, archived: bool) returns (ok: bool)
      requires Sound(saved)
      modifies this
      ensures Transition(old(saved), saved)
      ensures var s := Read(old(saved));
              && (ok <==> Find(s, id).Some?)
              && saved == if !ok then old(saved)
                          else if archived && IdOf(s.active) == Some(id) then Filed(s)
                          else Put(s, Find(s, id).value.(archived := archived))
    {
      Stays(saved);
      FindHasId(saved, id);
      var state := Read(saved);
      var found := Find(state, id);
      if found.None? {
        return false;
      }
      if archived && IdOf(state.active) == Some(id) {
        StoredFiling(saved);
        state := Remembered(state);
        state := state.(active := Some(state.active.value.(archived := true)));
        state := Retired(state);
        saved := DefaultSelected(state);
      } else {
        StoredEdit(saved, found.value.(archived := archived));
        saved := Put(state, found.value.(archived := archived));
      }
      return true;
    }

    /** `title` has its white space collapsed. */
    method RenameSession(title: string) returns (ok: bool)
      requires Sound(saved)
      modifies this
      ensures Transition(old(saved), saved)
      ensures ok <==> 0 < |title| <= 80 && old(saved).active.Some?
      ensures saved == if ok then Opened(Read(old(saved)), old(saved).active.value.(title := Some(title))) else old(saved)
    {
      Stays(saved);
      ReadKeeps(saved);
      var state := Read(saved);
      if |title| == 0 || |title| > 80 || state.active.None? {
        return false;
      }
      var x := state.active.value.(title := Some(title));
      assert state.active.value in Book(state);
      EditActive(state, x);
      Then(saved, state, Opened(state, x));
      saved := state.(active := Some(x));
      return true;
    }

    /** A new conversation on the default choice. */
    method ResetSession(expected: Option<Option<string>>, guard: Option<Guard>, newId: string) returns (r: Result<Session>)
      requires Sound(saved) && Unused(saved, newId)
      modifies this
      ensures Transition(old(saved), saved)
      ensures var s := Read(old(saved));
              var blank := if DefaultPreset(s).Some? then Bind(Blank(newId), DefaultPreset(s).value) else Blank(newId);
              && (r.Ok? <==> Passes(s, guard) && Expects(s.active, expected))
              && (r.Ok? ==> r.value == blank)
              && saved == if r.Ok? then DefaultSelected(Followed(s, blank)) else old(saved)
    {
      Stays(saved);
      var state := Read(saved);
      if !Passes(state, guard) || !Expects(state.active, expected) {
        return Refused;
      }
      var next := Blank(newId);
      var fallback := DefaultPreset(state);
      if fallback.Some? {
        next := Bind(next, fallback.value);
      }
      StoredFollowing(saved, next);
      state := Retired(Remembered(state));
      state := state.(active := Some(next));
      saved := DefaultSelected(state);
      return Ok(next);
    }

    // -------------------------------------------------------------- capturing work

    /** The conversation and setup of a message; the unlocked answer and the locked one agree. */
    method CaptureChoice(initial: Preset, title: string, newId: string) returns (choice: ExecutionChoice)
      requires Sound(saved) && Unused(saved, newId)
      modifies this
      ensures Transition(old(saved), saved)
      ensures var s := WithAi(Read(old(saved)), initial, Some([]));
              && Selected(s).Some? && Captured(s, title, newId).active.Some?
              && choice == Chosen(Captured(s, title, newId).active.value, s, Selected(s).value)
              && saved == if Settled(Read(old(saved)), title) then old(saved) else Captured(s, title, newId)
    {
      Stays(saved);
      ReadKeeps(saved);
      var settled := Read(saved);
      WithAiKeeps(settled, initial, Some([]));
      SelectedExists(WithAi(settled, initial, Some([])));
      if Settled(settled, title) {
        FastPathIsExact(settled, title, newId);
        var chain := ResolveFallbacks(Selected(settled).value, settled.ai.value.fallbacks);
        return ExecutionChoice(settled.active.value.id, Selected(settled).value, chain);
      }
      var state := WithAi(Read(saved), initial, Some([]));
      var p := Selected(state).value;
      CapturedKeeps(state, title, newId);
      Then(saved, settled, state);
      Then(saved, state, Captured(state, title, newId));
      ghost var before := state;
      if state.active.None? {
        state := state.(active := Some(Bind(Blank(newId), p)));
      }
      if state.active.value.cli.None? && !state.active.value.hasStarted {
        state := state.(active := Some(Bind(state.active.value, p)));
      }
      if OfEngine(state.active.value, p) {
        if Splits(state.active.value, p) {
          state := state.(sessions := state.sessions + [state.active.value],
              active := Some(Bind(Blank(newId), p).(preset := Some(p))));
        } else {
          state := state.(active := Some(state.active.value.(preset := Some(p))));
        }
      }
      assert state == Placed(before, p, newId);
      state := state.(active := Some(Titled(state.active.value, title)));
      saved := state;
      var chain := ResolveFallbacks(p, state.ai.value.fallbacks);
      return ExecutionChoice(state.active.value.id, p, chain);
    }

    /** An application's own conversation is shared or changed, or stays as it is stored. */
    method Take(state: State, x: Session, share: bool, changed: bool)
      requires Sound(saved) && state.ai.Some? && x.preset.Some?
      requires Transition(saved, Put(state, x)) && Transition(saved, Activated(Put(state, x), x))
      modifies this
      ensures Transition(old(saved), saved)
      ensures saved == if share then Activated(Put(state, x), x) else if changed then Put(state, x) else old(saved)
    {
      Stays(saved);
      if share {
        saved := Activated(Put(state, x), x);
      } else if changed {
        saved := Put(state, x);
      }
    }

    /** The conversation and setup of an application's request, made on first use. */
    method CaptureApplicationChoice(initial: Preset, scope: string, share: bool, requested: Option<Preset>,
        expectedNative: Option<string>, newId: string)
        returns (r: Result<ExecutionChoice>)
      requires Sound(saved) && Unused(saved, newId)
      modifies this
      ensures Transition(old(saved), saved)
      ensures var s := WithAi(Read(old(saved)), initial, None);
              var known := Current(s, scope).Some? && Current(s, scope).value.preset.Some?;
              && (r.Refused? <==>
                    || (expectedNative.Some? && (Current(s, scope).None? || Current(s, scope).value.native != expectedNative))
                    || (known && requested.Some? && !OfEngine(Current(s, scope).value, requested.value)))
              && (r.Refused? ==> saved == old(saved))
              && (r.Ok? && known ==>
                    var x := Requested(Current(s, scope).value, requested);
                    && x.preset.Some? && r.value == Chosen(x, s, x.preset.value) && OfEngine(x, x.preset.value)
                    && saved == if share then Activated(Put(s, x), x) else if requested.Some? then Put(s, x) else old(saved))
              && (r.Ok? && !known ==>
                    && Selected(s).Some?
                    && var p := requested.GetOr(Selected(s).value);
                       var x := ForScope(p, scope, newId);
                       && r.value == Chosen(x, s, p)
                       && saved == if share then Activated(Added(s, x), x) else Added(s, x))
    {
      Stays(saved);
      StoredWithAi(saved, initial, None);
      var state := WithAi(Read(saved), initial, None);
      var previous := Current(state, scope);
      if expectedNative.Some? && (previous.None? || previous.value.native != expectedNative) {
        return Refused;
      }
      if previous.Some? && previous.value.preset.Some? {
        if requested.Some? && !OfEngine(previous.value, requested.value) {
          return Refused;
        }
        var x := Requested(previous.value, requested);
        KnownApplication(saved, state, scope, requested);
        var chain := ResolveFallbacks(x.preset.value, state.ai.value.fallbacks);
        Take(state, x, share, requested.Some?);
        return Ok(ExecutionChoice(x.id, x.preset.value, chain));
      }
      var p := requested.GetOr(Selected(state).value);
      var x := ForScope(p, scope, newId);
      NewApplication(saved, state, scope, p, newId);
      var chain := ResolveFallbacks(p, state.ai.value.fallbacks);
      state := Added(state, x);
      if share {
        state := Activated(state, x);
      }
      saved := state;
      return Ok(ExecutionChoice(newId, p, chain));
    }

    /** A remote change of an application's own conversation: another setup of its engine, or a new conversation. */
    method ChangeApplicationSession(scope: string, guard: Guard, preset: Option<Preset>, newId: string) returns (r: Result<Session>)
      requires Sound(saved) && Unused(saved, newId)
      modifies this
      ensures Transition(old(saved), saved)
      ensures var s := Read(old(saved));
              var p := if preset.Some? then preset else DefaultPreset(s);
              && (r.Ok? <==> guard.scope == Some(scope) && guard.expected.Some? && Passes(s, Some(guard)) && p.Some?)
              && (r.Refused? ==> saved == old(saved))
              && (r.Ok? ==> saved == if preset.Some? && Current(s, scope).Some? && OfEngine(Current(s, scope).value, preset.value)
                                       then Put(s, r.value) else Added(ScopeRetired(s, scope), r.value))
              && (r.Ok? ==> r.value == if preset.Some? && Current(s, scope).Some? && OfEngine(Current(s, scope).value, preset.value)
                                         then Current(s, scope).value.(preset := preset) else ForScope(p.value, scope, newId))
    {
      Stays(saved);
      var state := Read(saved);
      if guard.scope != Some(scope) || guard.expected.None? || !Passes(state, Some(guard)) {
        return Refused;
      }
      var previous := Current(state, scope);
      var next := if preset.Some? then preset else DefaultPreset(state);
      if next.None? {
        return Refused;
      }
      if preset.Some? && previous.Some? && OfEngine(previous.value, preset.value) {
        var x := previous.value.(preset := preset);
        ReadKeeps(saved);
        CurrentIsFound(state, scope);
        StoredEdit(saved, x);
        saved := Put(state, x);
        return Ok(x);
      }
      StoredScopeChange(saved, scope, next.value, newId);
      if previous.Some? {
        state := Put(state, previous.value.(archived := true));
      }
      var x := ForScope(next.value, scope, newId);
      saved := state.(sessions := state.sessions + [x]);
      return Ok(x);
    }

    // -------------------------------------------------------------- native sessions

    /** A native session identifier never changes once it is known. */
    method SaveNativeSession(id: string, native: string) returns (ok: bool)
      requires Sound(saved)
      modifies this
      ensures Transition(old(saved), saved)
      ensures var found := Find(Read(old(saved)), id);
              && (ok <==> found.Some? && (found.value.native.Some? ==> found.value.native == Some(native)))
              && saved == if ok then Put(Read(old(saved)), found.value.(native := Some(native), hasStarted := true)) else old(saved)
    {
      Stays(saved);
      FindHasId(saved, id);
      var state := Read(saved);
      var found := Find(state, id);
      if found.None? || (found.value.native.Some? && found.value.native.value != native) {
        return false;
      }
      StoredEdit(saved, found.value.(native := Some(native), hasStarted := true));
      saved := Put(state, found.value.(native := Some(native), hasStarted := true));
      return true;
    }

    /** The native session a login resumes for a conversation: its own, or a link made on first use. */
    method EngineSession(id: string, p: Preset, newId: string) returns (r: Result<NativeSession>)
      requires Sound(saved)
      modifies this
      ensures Transition(old(saved), saved)
      ensures var s := Read(old(saved));
              var found := Find(s, id);
              && (r.Ok? <==> found.Some? && found.value.cli.Some?)
              && (r.Refused? || !ServerOf(found.value, p).NoServer? ==> saved == old(saved))
              && (r.Ok? && ServerOf(found.value, p).Own? ==>
                  r.value == NativeSession(found.value.id, found.value.native, found.value.hasStarted))
              && (r.Ok? && ServerOf(found.value, p).AtLink? ==>
                    var l := found.value.linked[ServerOf(found.value, p).k];
                    r.value == NativeSession(l.sessionId, l.native, l.hasStarted))
              && (r.Ok? && ServerOf(found.value, p).NoServer? ==>
                    var l := Linked(p.cli, p.authProfile, newId, None, false);
                    r.value == NativeSession(newId, None, false)
                        && saved == Put(s, found.value.(linked := WithLink(found.value.linked, l))))
    {
      Stays(saved);
      ReadKeeps(saved);
      FindHasId(saved, id);
      var state := Read(saved);
      var found := Find(state, id);
      if found.None? || found.value.cli.None? {
        return Refused;
      }
      var x := found.value;
      match ServerOf(x, p) {
        case Own =>
          return Ok(NativeSession(x.id, x.native, x.hasStarted));
        case AtLink(k) =>
          return Ok(NativeSession(x.linked[k].sessionId, x.linked[k].native, x.linked[k].hasStarted));
        case NoServer =>
          FoundIsSound(state, id);
          WithLinkKeeps(x, p, newId);
          var y := x.(linked := WithLink(x.linked, Linked(p.cli, p.authProfile, newId, None, false)));
          StoredEdit(saved, y);
          saved := Put(state, y);
          return Ok(NativeSession(newId, None, false));
      }
    }

    method SaveEngineSession(id: string, p: Preset, native: string) returns (ok: bool)
      requires Sound(saved)
      modifies this
      ensures Transition(old(saved), saved)
      ensures var found := Find(Read(old(saved)), id);
              && (ok <==> found.Some? && found.value.cli.Some? && !ServerOf(found.value, p).NoServer?
                          && (NativeOf(found.value, p).Some? ==> NativeOf(found.value, p).value == native))
              && saved == if ok then Put(Read(old(saved)), NativeSaved(found.value, p, native)) else old(saved)
    {
      Stays(saved);
      ReadKeeps(saved);
      FindHasId(saved, id);
      var state := Read(saved);
      var found := Find(state, id);
      if found.None? || found.value.cli.None? || ServerOf(found.value, p).NoServer? {
        return false;
      }
      if NativeOf(found.value, p).Some? && NativeOf(found.value, p).value != native {
        return false;
      }
      FoundIsSound(state, id);
      NativeSavedKeeps(found.value, p, native);
      StoredEdit(saved, NativeSaved(found.value, p, native));
      saved := Put(state, NativeSaved(found.value, p, native));
      return true;
    }

    method SettleEngineSession(id: string, p: Preset, started: bool, newId: string)
      requires Sound(saved)
      modifies this
      ensures Transition(old(saved), saved)
      ensures var found := Find(Read(old(saved)), id);
              saved == if found.None? || ServerOf(found.value, p).NoServer? || StartedOf(found.value, p)
                  || Reports(p.cli) then old(saved)
                       else Put(Read(old(saved)), AttemptSettled(found.value, p, started, newId))
    {
      Stays(saved);
      ReadKeeps(saved);
      FindHasId(saved, id);
      var state := Read(saved);
      var found := Find(state, id);
      if found.None? || ServerOf(found.value, p).NoServer? || StartedOf(found.value, p) || Reports(p.cli) {
        return;
      }
      FoundIsSound(state, id);
      AttemptSettledKeeps(found.value, p, started, newId);
      StoredEdit(saved, AttemptSettled(found.value, p, started, newId));
      saved := Put(state, AttemptSettled(found.value, p, started, newId));
    }

    // -------------------------------------------------------------- settings

    method AiState(initial: Preset) returns (ai: Ai)
      requires Sound(saved)
      modifies this
      ensures Transition(old(saved), saved) && saved == WithAi(Read(old(saved)), initial, Some([])) && saved.ai == Some(ai)
    {
      StoredWithAi(saved, initial, Some([]));
      saved := WithAi(Read(saved), initial, Some([]));
      return saved.ai.value;
    }

    /** The preset that settings begin with: the first discovered one of the same client, except for Codex. */
    method InitialPreset(initial: Preset, discovered: seq<Preset>) returns (first: Preset)
      ensures FirstOfClient(initial, discovered, first)
    {
      if initial.cli.Codex? || initial.cli.CodexGui? {
        return initial;
      }
      for i := 0 to |discovered|
        invariant forall j :: 0 <= j < i ==> discovered[j].cli != initial.cli
      {
        if discovered[i].cli == initial.cli {
          return discovered[i];
        }
      }
      return initial;
    }

    /**
     * Discovered presets are refreshed. The state stays readable and loses no conversation; saved choices
     * stay apart exactly when new discovered ones do, as those do that carry the prefix of a discovery.
     */
    method SyncClientPresets(initial: Preset, discovered: seq<Preset>)
      requires Sound(saved)
      modifies this
      ensures IsState(saved) && Continues(old(saved), saved) && saved.ai.Some?
      ensures SavedApart(discovered) ==> Transition(old(saved), saved)
      ensures exists first :: FirstOfClient(initial, discovered, first)
                && saved == WithAi(Read(old(saved)), first, Some([])).(ai := saved.ai)
                && saved.ai == Some(Synced(WithAi(Read(old(saved)), first, Some([])).ai.value, initial, discovered))
                && (Sound(saved) <==> SavedApart(NewOf(WithAi(Read(old(saved)), first, Some([])).ai.value, discovered)))
    {
      var first := InitialPreset(initial, discovered);
      StoredWithAi(saved, first, Some([]));
      var state := WithAi(Read(saved), first, Some([]));
      SyncedKeeps(state.ai.value, initial, discovered);
      SettingsAreReadable(saved, state, Synced(state.ai.value, initial, discovered));
      saved := state.(ai := Some(Synced(state.ai.value, initial, discovered)));
    }

    method NormalizeProviderBindings(catalog: seq<ModelChoice>) returns (changed: bool)
      requires Sound(saved)
      modifies this
      ensures Transition(old(saved), saved)
      ensures var s := Read(old(saved));
              && (changed <==> s.ai.Some? && Normal(catalog, s) != s)
              && saved == if changed then Normal(catalog, s) else old(saved)
    {
      Stays(saved);
      ReadKeeps(saved);
      var state := Read(saved);
      if state.ai.None? {
        return false;
      }
      NormalKeeps(catalog, state);
      Then(saved, state, Normal(catalog, state));
      changed := Normal(catalog, state) != state;
      if changed {
        saved := Normal(catalog, state);
      }
    }

    method SetChatFallbacks(chain: Option<seq<Preset>>) returns (ok: bool)
      requires Sound(saved)
      modifies this
      ensures Transition(old(saved), saved)
      ensures !ok <==>
                || old(saved).ai.None?
                || (chain.Some? && (|chain.value| < 1 || |chain.value| > 12))
                || (chain.Some? && exists i, j :: 0 <= i < j < |chain.value| && chain.value[i].id == chain.value[j].id)
                || (chain.Some? && exists p :: p in chain.value && !effortOk(p))
      ensures saved == if ok then Read(old(saved)).(ai := Some(Read(old(saved)).ai.value.(fallbacks := chain.GetOr([]))))
              else old(saved)
    {
      Stays(saved);
      ReadKeeps(saved);
      var state := Read(saved);
      if chain.Some? && !ValidChain(chain.value, effortOk) {
        return false;
      }
      if state.ai.None? {
        return false;
      }
      var ai := state.ai.value.(fallbacks := chain.GetOr([]));
      StoredSettings(state, ai);
      Then(saved, state, state.(ai := Some(ai)));
      saved := state.(ai := Some(ai));
      return true;
    }

    /** At the cap the oldest choice not in use makes room; there always is one. */
    method SavePreset(p: Preset, guard: Option<Guard>) returns (ok: bool)
      requires Sound(saved)
      modifies this
      ensures Transition(old(saved), saved)
      ensures var s := Read(old(saved));
              && (ok <==> effortOk(p) && Passes(s, guard) && s.ai.Some?)
              && saved == if ok then s.(ai := Some(s.ai.value.(presets := Saved(s.ai.value, p)))) else old(saved)
    {
      Stays(saved);
      ReadKeeps(saved);
      var state := Read(saved);
      if !effortOk(p) || !Passes(state, guard) || state.ai.None? {
        return false;
      }
      var ai := state.ai.value;
      SavedKeeps(ai, p);
      StoredSettings(state, ai.(presets := Saved(ai, p)));
      Then(saved, state, state.(ai := Some(ai.(presets := Saved(ai, p)))));
      var choices := SavedChoices(ai.presets);
      var presets := ai.presets;
      if |choices| >= MOST_SAVED && !HasId(ai.presets, p.id) {
        EvictableExists(ai);
        presets := WithoutPreset(presets, Oldest(ai, choices).value.id);
      }
      presets := WithoutPreset(presets, p.id) + [p];
      saved := state.(ai := Some(ai.(presets := presets)));
      return true;
    }

    /** `Ok(false)` asks the caller whether a new conversation is meant; nothing has changed then. */
    method SelectPreset(id: string, expected: Option<string>, startNew: bool, guard: Option<Guard>, newId: string)
        returns (r: Result<bool>)
      requires Sound(saved) && Unused(saved, newId)
      modifies this
      ensures Transition(old(saved), saved)
      ensures var s := Read(old(saved));
              && (r.Ok? <==> Passes(s, guard) && s.ai.Some? && FindPreset(s.ai.value.presets, id).Some?
                             && effortOk(FindPreset(s.ai.value.presets, id).value) && IdOf(s.active) == expected)
              && (r.Ok? ==>
                    && Selected(s).Some?
                    && (r.value <==> startNew || !NeedsFresh(s, Selected(s).value, FindPreset(s.ai.value.presets, id).value)))
              && saved == if r == Ok(true) then Picked(s, FindPreset(s.ai.value.presets, id).value, startNew, newId) else old(saved)
    {
      Stays(saved);
      var state := Read(saved);
      if !Passes(state, guard) || state.ai.None? || FindPreset(state.ai.value.presets, id).None? {
        return Refused;
      }
      var p := FindPreset(state.ai.value.presets, id).value;
      if !effortOk(p) || IdOf(state.active) != expected {
        return Refused;
      }
      SelectedExists(saved);
      assert Selected(state) == Selected(saved);
      if NeedsFresh(state, Selected(state).value, p) && !startNew {
        return Ok(false);
      }
      StoredPick(saved, id, startNew, newId);
      saved := Picked(state, p, startNew, newId);
      return Ok(true);
    }

    method DefaultChoice(id: string) returns (ok: bool)
      requires Sound(saved)
      modifies this
      ensures Transition(old(saved), saved)
      ensures var s := Read(old(saved));
              && (ok <==>
                    && s.ai.Some? && FindPreset(s.ai.value.presets, id).Some?
                    && effortOk(FindPreset(s.ai.value.presets, id).value))
              && saved == if ok then s.(ai := Some(s.ai.value.(defaultId := id))) else old(saved)
    {
      Stays(saved);
      ReadKeeps(saved);
      var state := Read(saved);
      if state.ai.None? || FindPreset(state.ai.value.presets, id).None? || !effortOk(FindPreset(state.ai.value.presets, id).value) {
        return false;
      }
      FindPresetFinds(state.ai.value.presets, id);
      var ai := state.ai.value.(defaultId := id);
      StoredSettings(state, ai);
      Then(saved, state, state.(ai := Some(ai)));
      saved := state.(ai := Some(ai));
      return true;
    }

    // -------------------------------------------------------------- quota records and the owner

    /** After a limit every setup of that login scope is blocked past the present. */
    method RecordSetupOutcome(owner: string, a: Attempt, now: int) returns (ok: bool)
      requires Sound(saved) && now >= 0
      modifies this
      ensures Transition(old(saved), saved)
      ensures ok <==> !Recordable(a) || old(saved).owner == Some(owner)
      ensures saved == if Recordable(a) && ok then Read(old(saved)).(health := Noted(old(saved).health, a, now)) else old(saved)
      ensures ok && a.category.Some? && QuotaCategory(a.category.value) && !a.outcome.Completed? ==>
                forall p :: QuotaScope(p) == QuotaScope(a.preset) ==> Blocked(saved.health, p, now)
    {
      Stays(saved);
      if !Recordable(a) {
        return true;
      }
      var state := Read(saved);
      if state.owner != Some(owner) {
        return false;
      }
      LimitClosesTheScope(saved.health, a, now, a.preset);
      OutcomeKeepsTheWait(HealthOf(saved.health, a.preset), a, now);
      StoredHealth(saved, Noted(saved.health, a, now));
      var scope := QuotaScope(a.preset);
      var health := Recorded(HealthOf(state.health, a.preset), a, now);
      saved := state.(health := if health == WELL then state.health - {scope} else state.health[scope := health]);
      return true;
    }

    method ClearQuotaWait(owner: string, scopes: seq<Scope>) returns (ok: bool)
      requires Sound(saved)
      modifies this
      ensures Transition(old(saved), saved)
      ensures ok <==> old(saved).owner == Some(owner)
      ensures saved == if ok then Read(old(saved)).(health := saved.health) else old(saved)
      ensures ok ==> saved.health.Keys == old(saved).health.Keys
      ensures ok ==> forall scope :: scope in saved.health ==>
                saved.health[scope] ==
                if scope in scopes then Health(old(saved).health[scope].lastSuccessAt, None, None, None, false)
                else old(saved).health[scope]
    {
      Stays(saved);
      if saved.owner != Some(owner) {
        return false;
      }
      var health := saved.health;
      for i := 0 to |scopes|
        invariant health.Keys == saved.health.Keys
        invariant forall scope :: scope in health ==>
                    health[scope] == if scope in scopes[..i] then Forgiven(saved.health[scope]) else saved.health[scope]
      {
        if scopes[i] in health {
          health := health[scopes[i] := Forgiven(health[scopes[i]])];
        }
        assert scopes[..i + 1] == scopes[..i] + [scopes[i]];
      }
      assert scopes[..|scopes|] == scopes;
      StoredHealth(saved, health);
      saved := Read(saved).(health := health);
      return true;
    }

    /** The one method after which conversations are gone: their owner is. */
    method RevokeOwner() returns (hadOwner: bool)
      modifies this
      ensures Sound(saved) && saved == State(None, None, [], None, map[]) && hadOwner == old(saved).owner.Some?
    {
      hadOwner := saved.owner.Some?;
      saved := State(None, None, [], None, map[]);
    }
  }
}
