/** The control state: conversations, AI presets and quota records, and what makes a state readable. */
module Conversations {
  import opened Options
  import opened Sequences
  import opened Setups
  import opened QuotaHealth

  datatype Linked = Linked(cli: Cli, authProfile: Option<string>, sessionId: string, native: Option<string>, hasStarted: bool)

  datatype Session = Session(id: string, hasStarted: bool, cli: Option<Cli>, authProfile: Option<string>, native: Option<string>,
                             title: Option<string>, archived: bool, preset: Option<Preset>, scope: Option<string>, shared: bool,
                             linked: seq<Linked>)

  /** `fallbacks` is empty when no chain is set; `recentIds` may be absent in a stored state. */
  datatype Ai = Ai(presets: seq<Preset>, defaultId: string, selectedId: string, recentIds: Option<seq<string>>,
                   fallbacks: seq<Preset>)

  datatype State = State(owner: Option<string>, active: Option<Session>, sessions: seq<Session>, ai: Option<Ai>,
      health: SetupHealth)

  // ---------------------------------------------------------------- what a reader accepts

  predicate SameLogin(a: Linked, b: Linked) {
    a.cli == b.cli && a.authProfile == b.authProfile
  }

  predicate LinkedApart(links: seq<Linked>) {
    forall i, j :: 0 <= i < j < |links| ==> !SameLogin(links[i], links[j])
  }

  predicate LinkedElsewhere(s: Session) {
    forall l :: l in s.linked ==> s.cli != Some(l.cli) || s.authProfile != l.authProfile
  }

  predicate IsSession(s: Session) {
    && (s.title.Some? ==> |s.title.value| <= 80)
    && (s.authProfile.Some? ==> s.cli.Some?)
    && (s.preset.Some? ==> SameEngine(s.cli, s.authProfile, s.preset.value))
    && |s.linked| <= 16 && LinkedApart(s.linked) && LinkedElsewhere(s)
  }

  predicate HasId(presets: seq<Preset>, id: string) {
    exists p :: p in presets && p.id == id
  }

  predicate IsAi(ai: Ai) {
    && HasId(ai.presets, ai.defaultId) && HasId(ai.presets, ai.selectedId)
    && (ai.recentIds.Some? ==> |ai.recentIds.value| <= 3 && forall i, j :: 0 <= i < j < |ai.recentIds.value| ==>
        ai.recentIds.value[i] != ai.recentIds.value[j])
    && |ai.fallbacks| <= 12
  }

  /** The shape a reader accepts; anything else makes the whole store unreadable. */
  predicate IsState(s: State) {
    && (s.active.Some? ==> IsSession(s.active.value))
    && (forall x :: x in s.sessions ==> IsSession(x))
    && (s.ai.Some? ==> IsAi(s.ai.value))
    && ValidRecord(s.health)
  }

  // ---------------------------------------------------------------- the invariant

  /** Every conversation, the active one included. */
  ghost function Book(s: State): multiset<Session> {
    multiset(s.sessions) + if s.active.Some? then multiset{s.active.value} else multiset{}
  }

  /** A conversation that has linked logins is bound to a client of its own. */
  predicate SoundSession(s: Session) {
    IsSession(s) && (s.linked != [] ==> s.cli.Some?)
  }

  ghost predicate SoundBook(book: multiset<Session>) {
    && (forall x :: x in book ==> SoundSession(x) && book[x] == 1)
    && (forall x, y :: x in book && y in book && x.id == y.id ==> x == y)
  }

  predicate Detected(p: Preset) {
    "detected_" <= p.id
  }

  /** Choices the owner saved have identifiers of their own. */
  predicate SavedApart(presets: seq<Preset>) {
    forall i, j :: 0 <= i < j < |presets| && presets[i].id == presets[j].id ==> Detected(presets[i])
  }

  ghost predicate SoundAi(ai: Option<Ai>) {
    ai.Some? ==> IsAi(ai.value) && SavedApart(ai.value.presets)
  }

  /** What every transition keeps. */
  ghost predicate Sound(s: State) {
    SoundBook(Book(s)) && SoundAi(s.ai) && ValidRecord(s.health)
  }

  /** The store never writes what it cannot read back: its conversations, their linked logins and its settings. */
  lemma SoundIsReadable(s: State)
    requires Sound(s)
    ensures IsState(s)
    ensures forall x :: x in s.sessions || s.active == Some(x) ==>
              && (x.title.Some? ==> |x.title.value| <= 80) && (x.authProfile.Some? ==> x.cli.Some?)
              && (x.preset.Some? ==> x.cli == Some(x.preset.value.cli) && x.authProfile == x.preset.value.authProfile)
              && |x.linked| <= 16 && (forall l :: l in x.linked ==> x.cli != Some(l.cli) || x.authProfile != l.authProfile)
              && (forall i, j :: 0 <= i < j < |x.linked| ==>
                    x.linked[i].cli != x.linked[j].cli || x.linked[i].authProfile != x.linked[j].authProfile)
    ensures s.ai.Some? ==>
              && |s.ai.value.fallbacks| <= 12 && |s.ai.value.recentIds.GetOr([])| <= 3
              && (exists p :: p in s.ai.value.presets && p.id == s.ai.value.selectedId)
              && exists p :: p in s.ai.value.presets && p.id == s.ai.value.defaultId
  {
    assert forall x :: x in s.sessions ==> x in Book(s);
    assert s.active.Some? ==> s.active.value in Book(s);
  }

  // ---------------------------------------------------------------- what happens to a conversation

  /**
   * A bound client stays, a start is never undone, and the native session of a started conversation
   * stays what it is.
   */
  predicate Evolves(a: Session, b: Session) {
    && a.id == b.id && a.scope == b.scope
    && (a.cli.Some? ==> b.cli == a.cli && b.authProfile == a.authProfile)
    && (a.hasStarted ==> b.hasStarted)
    && (a.hasStarted && a.native.Some? ==> b.native == a.native)
  }

  ghost predicate InBook(book: multiset<Session>, a: Session) {
    exists b :: b in book && Evolves(a, b)
  }

  /** No conversation is lost. */
  ghost predicate BookContinues(before: multiset<Session>, after: multiset<Session>) {
    forall a {:trigger InBook(after, a)} :: a in before ==> InBook(after, a)
  }

  ghost predicate Continues(s: State, t: State) {
    BookContinues(Book(s), Book(t))
  }

  lemma ContinuesTransitive(s: State, t: State, u: State)
    requires Continues(s, t) && Continues(t, u)
    ensures Continues(s, u)
  {
    forall a | a in Book(s) ensures InBook(Book(u), a) {
      assert InBook(Book(t), a);
      var b :| b in Book(t) && Evolves(a, b);
      assert InBook(Book(u), b);
      var c :| c in Book(u) && Evolves(b, c);
      assert Evolves(a, c);
    }
  }

  /** A transition as its caller sees it. */
  ghost predicate Transition(s: State, t: State) {
    Sound(t) && Continues(s, t)
  }

  ghost predicate IsRun(run: seq<State>) {
    run != [] && Sound(run[0]) && forall i :: 0 < i < |run| ==> Transition(run[i - 1], run[i])
  }

  /** Over a whole run of transitions, each conversation is still there with its client and its start. */
  lemma {:induction false} RunContinues(run: seq<State>)
    requires IsRun(run)
    ensures Sound(run[|run| - 1]) && Continues(run[0], run[|run| - 1])
  {
    if |run| > 1 {
      var init := run[..|run| - 1];
      assert IsRun(init) by {
        forall i | 0 < i < |init| ensures Transition(init[i - 1], init[i]) {
          assert Transition(run[i - 1], run[i]);
        }
      }
      RunContinues(init);
      assert Transition(run[|run| - 2], run[|run| - 1]);
      ContinuesTransitive(run[0], run[|run| - 2], run[|run| - 1]);
    } else {
      assert forall a :: a in Book(run[0]) ==> Evolves(a, a);
    }
  }

  /** What becomes of one conversation over a whole run. */
  lemma ConversationStays(run: seq<State>, a: Session) returns (b: Session)
    requires IsRun(run) && a in Book(run[0])
    ensures b in Book(run[|run| - 1]) && b.id == a.id && b.scope == a.scope
    ensures a.cli.Some? ==> b.cli == a.cli && b.authProfile == a.authProfile
    ensures a.hasStarted ==> b.hasStarted && (a.native.Some? ==> b.native == a.native)
  {
    RunContinues(run);
    assert InBook(Book(run[|run| - 1]), a);
    b :| b in Book(run[|run| - 1]) && Evolves(a, b);
  }

  /** No conversation is ever there twice. */
  lemma NoDuplicate(s: State, a: Session, b: Session)
    requires Sound(s) && a in Book(s) && b in Book(s) && a.id == b.id
    ensures a == b && Book(s)[a] == 1
  {
  }

  // ---------------------------------------------------------------- changes to the book

  lemma EditBook(book: multiset<Session>, was: Session, now: Session)
    requires SoundBook(book) && was in book && SoundSession(now) && Evolves(was, now)
    ensures var after := book - multiset{was} + multiset{now};
            SoundBook(after) && BookContinues(book, after) && now in after
  {
    var after := book - multiset{was} + multiset{now};
    assert book[was] == 1;
    assert forall x :: x in after <==> x == now || (x in book && x != was);
    forall a | a in book ensures InBook(after, a) {
      assert Evolves(was, now) && (a != was ==> a in after && Evolves(a, a));
    }
  }

  /** No conversation has this identifier yet. */
  ghost predicate Unused(s: State, id: string) {
    forall x :: x in Book(s) ==> x.id != id
  }

  lemma AddToBook(book: multiset<Session>, x: Session)
    requires SoundBook(book) && SoundSession(x) && forall y :: y in book ==> y.id != x.id
    ensures SoundBook(book + multiset{x}) && BookContinues(book, book + multiset{x})
  {
    assert forall a :: a in book ==> a in book + multiset{x} && Evolves(a, a);
  }

  // ---------------------------------------------------------------- finding and replacing a conversation

  function FindIn(sessions: seq<Session>, id: string): Option<Session> {
    if sessions == [] then None else if sessions[0].id == id then Some(sessions[0]) else FindIn(sessions[1..], id)
  }

  function ReplaceIn(sessions: seq<Session>, x: Session): seq<Session> {
    if sessions == [] then []
    else if sessions[0].id == x.id then [x] + sessions[1..]
    else [sessions[0]] + ReplaceIn(sessions[1..], x)
  }

  lemma {:induction false} ReplaceInBook(sessions: seq<Session>, x: Session)
    requires FindIn(sessions, x.id).Some?
    ensures var was := FindIn(sessions, x.id).value;
            was in sessions && was.id == x.id
                && multiset(ReplaceIn(sessions, x)) == multiset(sessions) - multiset{was} + multiset{x}
  {
    assert sessions == [sessions[0]] + sessions[1..];
    if sessions[0].id != x.id {
      ReplaceInBook(sessions[1..], x);
    }
  }

  lemma {:induction false} NotFound(sessions: seq<Session>, id: string)
    ensures FindIn(sessions, id).None? <==> forall x :: x in sessions ==> x.id != id
    ensures FindIn(sessions, id).Some? ==> FindIn(sessions, id).value in sessions && FindIn(sessions, id).value.id == id
  {
    if sessions != [] {
      NotFound(sessions[1..], id);
      assert forall x :: x in sessions <==> x == sessions[0] || x in sessions[1..];
    }
  }

  /** The active conversation first, then the saved ones. */
  function Find(s: State, id: string): Option<Session> {
    if s.active.Some? && s.active.value.id == id then s.active else FindIn(s.sessions, id)
  }

  function Put(s: State, x: Session): State {
    if s.active.Some? && s.active.value.id == x.id then s.(active := Some(x)) else s.(sessions := ReplaceIn(s.sessions, x))
  }

  lemma FindIsInBook(s: State, id: string)
    ensures Find(s, id).Some? ==> Find(s, id).value in Book(s) && Find(s, id).value.id == id
    ensures Find(s, id).None? <==> Unused(s, id)
  {
    NotFound(s.sessions, id);
    assert forall x :: x in Book(s) <==> x in s.sessions || s.active == Some(x);
  }

  lemma PutBook(s: State, x: Session)
    requires Find(s, x.id).Some?
    ensures Book(Put(s, x)) == Book(s) - multiset{Find(s, x.id).value} + multiset{x}
    ensures Find(Put(s, x), x.id) == Some(x)
  {
    if s.active.None? || s.active.value.id != x.id {
      ReplaceInBook(s.sessions, x);
      FoundAfterReplace(s.sessions, x);
    }
  }

  /** An edit of one conversation that it may undergo keeps everything. */
  lemma PutKeeps(s: State, x: Session)
    requires Sound(s) && Find(s, x.id).Some? && SoundSession(x) && Evolves(Find(s, x.id).value, x)
    ensures Sound(Put(s, x)) && Continues(s, Put(s, x)) && x in Book(Put(s, x))
  {
    FindIsInBook(s, x.id);
    PutBook(s, x);
    EditBook(Book(s), Find(s, x.id).value, x);
  }

  lemma {:induction false} FoundAfterReplace(sessions: seq<Session>, x: Session)
    requires FindIn(sessions, x.id).Some?
    ensures FindIn(ReplaceIn(sessions, x), x.id) == Some(x)
  {
    if sessions[0].id != x.id {
      FoundAfterReplace(sessions[1..], x);
    }
  }

  // ---------------------------------------------------------------- moves

  function FindPreset(presets: seq<Preset>, id: string): Option<Preset> {
    if presets == [] then None else if presets[0].id == id then Some(presets[0]) else FindPreset(presets[1..], id)
  }

  lemma {:induction false} FindPresetFinds(presets: seq<Preset>, id: string)
    ensures FindPreset(presets, id).Some? <==> HasId(presets, id)
    ensures FindPreset(presets, id).Some? ==> FindPreset(presets, id).value in presets && FindPreset(presets, id).value.id == id
  {
    if presets != [] {
      FindPresetFinds(presets[1..], id);
      assert forall p :: p in presets <==> p == presets[0] || p in presets[1..];
    }
  }

  function Selected(s: State): Option<Preset> {
    if s.ai.None? then None else FindPreset(s.ai.value.presets, s.ai.value.selectedId)
  }

  /** The active conversation keeps a copy of the selected preset when it is of its own engine. */
  function Remembered(s: State): State {
    var p := Selected(s);
    if s.active.Some? && p.Some? && SameEngine(s.active.value.cli, s.active.value.authProfile, p.value)
      then s.(active := Some(s.active.value.(preset := p)))
    else s
  }

  /** The active conversation becomes the latest saved one. */
  function Retired(s: State): State {
    s.(active := None, sessions := if s.active.Some? then s.sessions + [s.active.value] else s.sessions)
  }

  function Opened(s: State, x: Session): State {
    s.(active := Some(x))
  }

  function Without(sessions: seq<Session>, id: string): seq<Session> {
    if sessions == [] then [] else (if sessions[0].id != id then [sessions[0]] else []) + Without(sessions[1..], id)
  }

  /** A saved conversation changes places with the active one. */
  function Swapped(s: State, x: Session): State {
    Opened(Retired(s.(sessions := Without(s.sessions, x.id))), x)
  }

  lemma RememberedKeeps(s: State)
    requires Sound(s)
    ensures Sound(Remembered(s)) && Continues(s, Remembered(s)) && forall id :: Unused(s, id) ==> Unused(Remembered(s), id)
  {
    if Remembered(s) == s {
      SideKeeps(s, s);
    } else {
      var x := s.active.value.(preset := Selected(s));
      assert s.active.value in Book(s);
      assert Remembered(s) == Put(s, x);
      PutKeeps(s, x);
      PutBook(s, x);
    }
  }

  lemma RetiredKeeps(s: State)
    requires Sound(s)
    ensures Book(Retired(s)) == Book(s) && Sound(Retired(s)) && Continues(s, Retired(s))
  {
    assert Book(Retired(s)) == Book(s);
    SideKeeps(s, Retired(s));
  }

  lemma OpenedKeeps(s: State, x: Session)
    requires Sound(s) && s.active.None? && SoundSession(x) && Unused(s, x.id)
    ensures Book(Opened(s, x)) == Book(s) + multiset{x} && Sound(Opened(s, x)) && Continues(s, Opened(s, x))
  {
    AddToBook(Book(s), x);
  }

  lemma {:induction false} WithoutBook(sessions: seq<Session>, x: Session)
    requires x in sessions && multiset(sessions)[x] == 1 && forall y :: y in sessions && y.id == x.id ==> y == x
    ensures multiset(Without(sessions, x.id)) == multiset(sessions) - multiset{x}
  {
    assert sessions == [sessions[0]] + sessions[1..];
    if sessions[0] == x {
      WithoutNothing(sessions[1..], x.id);
    } else {
      WithoutBook(sessions[1..], x);
    }
  }

  lemma {:induction false} WithoutNothing(sessions: seq<Session>, id: string)
    requires forall y :: y in sessions ==> y.id != id
    ensures Without(sessions, id) == sessions
  {
    if sessions != [] {
      WithoutNothing(sessions[1..], id);
    }
  }

  lemma SwappedBook(s: State, x: Session)
    requires SoundBook(Book(s)) && x in s.sessions
    ensures Book(Swapped(s, x)) == Book(s)
  {
    assert Book(s)[x] == 1;
    assert forall y :: y in s.sessions ==> y in Book(s);
    WithoutBook(s.sessions, x);
  }

  lemma SwappedKeeps(s: State, x: Session)
    requires Sound(s) && x in s.sessions
    ensures Book(Swapped(s, x)) == Book(s) && Sound(Swapped(s, x)) && Continues(s, Swapped(s, x))
  {
    SwappedBook(s, x);
    SideKeeps(s, Swapped(s, x));
  }

  /** Presets, health, owner and the order of conversations are no concern of the book. */
  lemma SideKeeps(s: State, t: State)
    requires Sound(s) && Book(t) == Book(s) && SoundAi(t.ai) && ValidRecord(t.health)
    ensures Sound(t) && Continues(s, t)
  {
    assert forall a :: a in Book(s) ==> Evolves(a, a);
  }

  lemma EditActive(s: State, x: Session)
    requires Sound(s) && s.active.Some? && SoundSession(x) && Evolves(s.active.value, x)
    ensures Transition(s, Opened(s, x))
  {
    assert Opened(s, x) == Put(s, x);
    PutKeeps(s, x);
  }

  /** The active conversation is saved and a new one takes its place. */
  lemma Succeeded(s: State, x: Session)
    requires Sound(s) && SoundSession(x) && Unused(s, x.id)
    ensures Transition(s, Opened(Retired(s), x)) && Book(Opened(Retired(s), x)) == Book(s) + multiset{x}
  {
    RetiredKeeps(s);
    OpenedKeeps(Retired(s), x);
  }

  lemma Then(s: State, t: State, u: State)
    requires Transition(s, t) && Transition(t, u)
    ensures Transition(s, u)
  {
    ContinuesTransitive(s, t, u);
  }

  // ---------------------------------------------------------------- presets

  function WithoutPreset(presets: seq<Preset>, id: string): seq<Preset> {
    if presets == [] then [] else (if presets[0].id != id then [presets[0]] else []) + WithoutPreset(presets[1..], id)
  }

  /** The preset becomes the latest saved one; an older one with its identifier goes. */
  function Latest(presets: seq<Preset>, p: Preset): seq<Preset> {
    WithoutPreset(presets, p.id) + [p]
  }

  lemma SavedApartHead(p: Preset, rest: seq<Preset>)
    ensures SavedApart([p] + rest) <==> SavedApart(rest) && forall q :: q in rest && q.id == p.id ==> Detected(p)
  {
    var all := [p] + rest;
    if SavedApart(all) {
      forall i, j | 0 <= i < j < |rest| && rest[i].id == rest[j].id ensures Detected(rest[i]) {
        assert all[i + 1] == rest[i] && all[j + 1] == rest[j];
      }
      forall q | q in rest && q.id == p.id ensures Detected(p) {
        var j :| 0 <= j < |rest| && rest[j] == q;
        assert all[0] == p && all[j + 1] == q;
      }
    }
  }

  lemma {:induction false} WithoutPresetKeeps(presets: seq<Preset>, id: string)
    ensures forall p :: p in WithoutPreset(presets, id) <==> p in presets && p.id != id
    ensures SavedApart(presets) ==> SavedApart(WithoutPreset(presets, id))
  {
    if presets != [] {
      assert presets == [presets[0]] + presets[1..];
      WithoutPresetKeeps(presets[1..], id);
      SavedApartHead(presets[0], presets[1..]);
      SavedApartHead(presets[0], WithoutPreset(presets[1..], id));
    }
  }

  lemma LatestKeeps(presets: seq<Preset>, p: Preset)
    ensures forall q :: q in Latest(presets, p) <==> q == p || (q in presets && q.id != p.id)
    ensures forall id :: HasId(Latest(presets, p), id) <==> id == p.id || HasId(presets, id)
    ensures SavedApart(presets) ==> SavedApart(Latest(presets, p))
  {
    var kept := WithoutPreset(presets, p.id);
    WithoutPresetKeeps(presets, p.id);
    forall id ensures HasId(Latest(presets, p), id) <==> id == p.id || HasId(presets, id) {
      assert p in Latest(presets, p);
      if id != p.id && HasId(presets, id) {
        var q :| q in presets && q.id == id;
        assert q in Latest(presets, p);
      }
    }
    assert forall i :: 0 <= i < |kept| ==> kept[i] in kept;
  }

  /** What a reader makes of the stored recent choices: those that still exist, three at most. */
  function Recent(ai: Ai): seq<string> {
    Filter(ai.recentIds.GetOr([ai.selectedId]), id => HasId(ai.presets, id))
  }

  /** A stored state as a method receives it. */
  function Read(s: State): State {
    if s.ai.None? then s else s.(ai := Some(s.ai.value.(recentIds := Some(Recent(s.ai.value)))))
  }

  lemma ReadKeeps(s: State)
    requires Sound(s)
    ensures Sound(Read(s)) && Continues(s, Read(s)) && Book(Read(s)) == Book(s)
    ensures s.ai.Some? ==> forall id :: id in Read(s).ai.value.recentIds.value ==> HasId(s.ai.value.presets, id)
  {
    if s.ai.Some? {
      var ai := s.ai.value;
      FilterNoRepeats(ai.recentIds.GetOr([ai.selectedId]), id => HasId(ai.presets, id));
      FilterMembers(ai.recentIds.GetOr([ai.selectedId]), id => HasId(ai.presets, id));
    }
    SideKeeps(s, Read(s));
  }
}
