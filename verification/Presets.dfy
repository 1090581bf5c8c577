/** The list of saved choices: eviction at its cap, recent choices, and provider bindings. */
module Presets {
  import opened Options
  import opened Sequences
  import opened Setups
  import opened Conversations

  const MOST_SAVED := 12

  function SavedChoices(presets: seq<Preset>): seq<Preset> {
    Filter(presets, p => !Detected(p))
  }

  function Ids(presets: seq<Preset>): seq<string> {
    seq(|presets|, i requires 0 <= i < |presets| => presets[i].id)
  }

  predicate Kept(ai: Ai, id: string) {
    id == ai.selectedId || id == ai.defaultId || id in ai.recentIds.GetOr([])
  }

  /** The oldest saved choice that is neither selected, default nor recent. */
  function Oldest(ai: Ai, saved: seq<Preset>): Option<Preset> {
    if saved == [] then None else if !Kept(ai, saved[0].id) then Some(saved[0]) else Oldest(ai, saved[1..])
  }

  /** The first saved choice that is neither selected, nor the default, nor recent. */
  predicate IsOldest(ai: Ai, saved: seq<Preset>, k: nat)
    requires k < |saved|
  {
    && saved[k].id != ai.selectedId && saved[k].id != ai.defaultId && (ai.recentIds.Some? ==> saved[k].id !in ai.recentIds.value)
    && forall p :: p in saved[..k] ==> p.id == ai.selectedId || p.id == ai.defaultId || p.id in ai.recentIds.GetOr([])
  }

  lemma {:induction false} OldestFinds(ai: Ai, saved: seq<Preset>)
    ensures Oldest(ai, saved).None? <==> forall p :: p in saved ==> Kept(ai, p.id)
    ensures Oldest(ai, saved).Some? ==>
            exists k :: 0 <= k < |saved| && IsOldest(ai, saved, k) && Oldest(ai, saved).value == saved[k]
  {
    if saved != [] {
      OldestFinds(ai, saved[1..]);
      assert forall p :: p in saved <==> p == saved[0] || p in saved[1..];
      if !Kept(ai, saved[0].id) {
        assert IsOldest(ai, saved, 0);
      } else if Oldest(ai, saved).Some? {
        var k :| 0 <= k < |saved| - 1 && IsOldest(ai, saved[1..], k) && Oldest(ai, saved[1..]).value == saved[1..][k];
        assert IsOldest(ai, saved, k + 1);
      }
    }
  }

  lemma {:induction false} SavedIdsDiffer(presets: seq<Preset>)
    requires SavedApart(presets)
    ensures NoRepeats(Ids(SavedChoices(presets)))
  {
    if presets != [] {
      var p, rest := presets[0], presets[1..];
      assert presets == [p] + rest;
      SavedApartHead(p, rest);
      SavedIdsDiffer(rest);
      if !Detected(p) {
        FilterMembers(rest, q => !Detected(q));
        assert Ids(SavedChoices(presets)) == [p.id] + Ids(SavedChoices(rest));
        forall id | id in Ids(SavedChoices(rest)) ensures id != p.id {
          var i :| 0 <= i < |SavedChoices(rest)| && Ids(SavedChoices(rest))[i] == id;
          assert SavedChoices(rest)[i] in SavedChoices(rest);
        }
        NoRepeatsHead(p.id, Ids(SavedChoices(rest)));
      } else {
        assert SavedChoices(presets) == SavedChoices(rest);
      }
    }
  }

  /** At the cap there is always a choice to evict: five at most are in use. */
  lemma EvictableExists(ai: Ai)
    requires SavedApart(ai.presets) && |SavedChoices(ai.presets)| >= MOST_SAVED && |ai.recentIds.GetOr([])| <= 3
    ensures var oldest := Oldest(ai, SavedChoices(ai.presets));
            && oldest.Some? && oldest.value in ai.presets && !Detected(oldest.value) && !Kept(ai, oldest.value.id)
            && exists k :: 0 <= k < |SavedChoices(ai.presets)| && IsOldest(ai, SavedChoices(ai.presets), k)
                 && oldest.value == SavedChoices(ai.presets)[k]
  {
    var saved, recent := SavedChoices(ai.presets), ai.recentIds.GetOr([]);
    OldestFinds(ai, saved);
    FilterMembers(ai.presets, p => !Detected(p));
    if Oldest(ai, saved).None? {
      SavedIdsDiffer(ai.presets);
      TooFew(ai, saved);
    }
  }

  lemma TooFew(ai: Ai, saved: seq<Preset>)
    requires NoRepeats(Ids(saved)) && |ai.recentIds.GetOr([])| <= 3 && forall p :: p in saved ==> Kept(ai, p.id)
    ensures |saved| < MOST_SAVED
  {
    var recent := ai.recentIds.GetOr([]);
    var pool := set id | id in recent + [ai.selectedId, ai.defaultId];
    PoolIsSmall(recent + [ai.selectedId, ai.defaultId]);
    forall id | id in Ids(saved) ensures id in pool {
      var i :| 0 <= i < |saved| && Ids(saved)[i] == id;
      assert saved[i] in saved;
    }
    NoLongerThan(Ids(saved), pool);
  }

  /** The list that one more saved choice leaves. */
  function Saved(ai: Ai, p: Preset): seq<Preset> {
    var oldest := Oldest(ai, SavedChoices(ai.presets));
    Latest(if |SavedChoices(ai.presets)| >= MOST_SAVED && !HasId(ai.presets, p.id) && oldest.Some?
             then WithoutPreset(ai.presets, oldest.value.id) else ai.presets, p)
  }

  /** Saving never removes the selected, the default or a recent choice. */
  lemma SavedKeeps(ai: Ai, p: Preset)
    requires IsAi(ai) && SavedApart(ai.presets)
    ensures IsAi(ai.(presets := Saved(ai, p))) && SavedApart(Saved(ai, p)) && p in Saved(ai, p)
    ensures forall id :: id == ai.selectedId || id == ai.defaultId || id in ai.recentIds.GetOr([]) ==>
              HasId(ai.presets, id) ==> HasId(Saved(ai, p), id)
    ensures HasId(ai.presets, p.id) || |SavedChoices(ai.presets)| < 12 ==> forall id :: HasId(ai.presets, id) ==>
            HasId(Saved(ai, p), id)
  {
    var oldest := Oldest(ai, SavedChoices(ai.presets));
    OldestFinds(ai, SavedChoices(ai.presets));
    var before := if |SavedChoices(ai.presets)| >= MOST_SAVED && !HasId(ai.presets, p.id) && oldest.Some?
                    then WithoutPreset(ai.presets, oldest.value.id) else ai.presets;
    if before != ai.presets {
      WithoutPresetKeeps(ai.presets, oldest.value.id);
    }
    forall id | Kept(ai, id) && HasId(ai.presets, id) ensures HasId(before, id) {
      var q :| q in ai.presets && q.id == id;
      assert q in before;
    }
    LatestKeeps(before, p);
  }

  lemma {:induction false} WithoutOne(presets: seq<Preset>, id: string)
    ensures |SavedChoices(WithoutPreset(presets, id))| <= |SavedChoices(presets)|
    ensures (exists p :: p in presets && p.id == id && !Detected(p)) ==>
              |SavedChoices(WithoutPreset(presets, id))| < |SavedChoices(presets)|
  {
    if presets != [] {
      WithoutOne(presets[1..], id);
      var rest := WithoutPreset(presets[1..], id);
      assert ([presets[0]] + rest)[1..] == rest;
      assert presets[0].id == id ==> WithoutPreset(presets, id) == rest;
      assert forall p :: p in presets <==> p == presets[0] || p in presets[1..];
    }
  }

  /** However often choices are saved, no more than twelve come to be kept. */
  lemma SavedAreFew(ai: Ai, p: Preset)
    requires SavedApart(ai.presets) && |ai.recentIds.GetOr([])| <= 3
    ensures |SavedChoices(Saved(ai, p))| <= 12 || |SavedChoices(Saved(ai, p))| <= |SavedChoices(ai.presets)|
  {
    var before := ai.presets;
    if |SavedChoices(ai.presets)| >= MOST_SAVED && !HasId(ai.presets, p.id) {
      EvictableExists(ai);
      var oldest := Oldest(ai, SavedChoices(ai.presets)).value;
      WithoutOne(ai.presets, oldest.id);
      before := WithoutPreset(ai.presets, oldest.id);
    }
    WithoutOne(before, p.id);
    FilterConcat(WithoutPreset(before, p.id), [p], q => !Detected(q));
    FilterPair(p, p, (q: Preset) => !Detected(q));
    assert before == ai.presets && HasId(ai.presets, p.id) && !Detected(p) ==>
        exists q :: q in ai.presets && q.id == p.id && !Detected(q);
  }

  function Others(id: string, recent: seq<string>): seq<string> {
    Filter(recent, other => other != id)
  }

  /** The chosen identifier first, then the others, three at most. */
  function RecentFirst(id: string, recent: seq<string>): seq<string> {
    var all := [id] + Others(id, recent);
    if |all| <= 3 then all else all[..3]
  }

  lemma RecentFirstKeeps(id: string, recent: seq<string>)
    requires NoRepeats(recent)
    ensures NoRepeats(RecentFirst(id, recent)) && |RecentFirst(id, recent)| <= 3 && RecentFirst(id, recent)[0] == id
  {
    FilterMembers(recent, other => other != id);
    FilterNoRepeats(recent, other => other != id);
    NoRepeatsHead(id, Others(id, recent));
  }

  lemma {:induction false} OthersAre(id: string, recent: seq<string>)
    ensures forall other :: other in Others(id, recent) <==> other in recent && other != id
    ensures id in recent ==> |Others(id, recent)| < |recent|
    ensures id !in recent ==> Others(id, recent) == recent
  {
    FilterMembers(recent, other => other != id);
    if recent != [] {
      OthersAre(id, recent[1..]);
    }
  }

  /** Among three at most, the others keep their order, and the third falls out exactly when the chosen one is new. */
  lemma RecentExactly(id: string, recent: seq<string>)
    requires NoRepeats(recent) && |recent| <= 3
    ensures if |recent| == 3 && id !in recent then RecentFirst(id, recent) == [id, recent[0], recent[1]]
            else RecentFirst(id, recent) == [id] + Others(id, recent)
    ensures forall other :: other in Others(id, recent) <==> other in recent && other != id
  {
    OthersAre(id, recent);
  }

  // ---------------------------------------------------------------- discovered choices

  const CHAT_DEFAULT := "chat-default"

  predicate Preserved(ai: Ai, p: Preset) {
    !Detected(p) || p.id == ai.selectedId || p.id == ai.defaultId
  }

  function PreservedOf(ai: Ai): seq<Preset> {
    Filter(ai.presets, (p: Preset) => Preserved(ai, p))
  }

  function NewOf(ai: Ai, discovered: seq<Preset>): seq<Preset> {
    Filter(discovered, (p: Preset) => !HasId(PreservedOf(ai), p.id))
  }

  /** Discovered entries are refreshed; saved, selected and default choices stay as they are. */
  function Refreshed(ai: Ai, discovered: seq<Preset>): seq<Preset> {
    PreservedOf(ai) + NewOf(ai, discovered)
  }

  function Synced(ai: Ai, initial: Preset, discovered: seq<Preset>): Ai {
    var presets := Refreshed(ai, discovered);
    ai.(presets := if initial.id == CHAT_DEFAULT && !HasId(presets, initial.id) then presets + [initial] else presets,
        recentIds := Some(Filter(ai.recentIds.GetOr([]), id => HasId(presets, id))))
  }

  lemma {:induction false} FilterKeepsApart(presets: seq<Preset>, keep: Preset -> bool)
    requires SavedApart(presets)
    ensures SavedApart(Filter(presets, keep))
  {
    if presets != [] {
      assert presets == [presets[0]] + presets[1..];
      SavedApartHead(presets[0], presets[1..]);
      FilterKeepsApart(presets[1..], keep);
      FilterMembers(presets[1..], keep);
      SavedApartHead(presets[0], Filter(presets[1..], keep));
    }
  }

  lemma {:induction false} AppendApart(presets: seq<Preset>, more: seq<Preset>)
    requires SavedApart(presets) && SavedApart(more)
    requires forall p :: p in more && !Detected(p) ==> !HasId(presets, p.id)
    ensures SavedApart(presets + more)
  {
    var all := presets + more;
    forall i, j | 0 <= i < j < |all| && all[i].id == all[j].id ensures Detected(all[i]) {
      if i < |presets| <= j {
        assert all[i] in presets && all[j] in more;
      }
    }
  }

  lemma RefreshedMembers(ai: Ai, discovered: seq<Preset>)
    ensures forall p :: p in PreservedOf(ai) <==> p in ai.presets && Preserved(ai, p)
    ensures forall p :: p in NewOf(ai, discovered) <==> p in discovered && !HasId(PreservedOf(ai), p.id)
    ensures forall p :: p in Refreshed(ai, discovered) <==> p in PreservedOf(ai) || p in NewOf(ai, discovered)
  {
    FilterMembers(ai.presets, (p: Preset) => Preserved(ai, p));
    FilterMembers(discovered, (p: Preset) => !HasId(PreservedOf(ai), p.id));
  }

  /** The selected, the default and every discovered identifier are there. */
  lemma RefreshedIds(ai: Ai, discovered: seq<Preset>)
    requires IsAi(ai)
    ensures HasId(Refreshed(ai, discovered), ai.selectedId) && HasId(Refreshed(ai, discovered), ai.defaultId)
    ensures forall p :: p in discovered ==> HasId(Refreshed(ai, discovered), p.id)
  {
    RefreshedMembers(ai, discovered);
    forall p | p in discovered ensures HasId(Refreshed(ai, discovered), p.id) {
      if HasId(PreservedOf(ai), p.id) {
        var q :| q in PreservedOf(ai) && q.id == p.id;
        assert q in Refreshed(ai, discovered);
      } else {
        assert p in Refreshed(ai, discovered);
      }
    }
    forall id | id == ai.selectedId || id == ai.defaultId ensures HasId(Refreshed(ai, discovered), id) {
      assert HasId(ai.presets, id);
      var q :| q in ai.presets && q.id == id;
      assert q in Refreshed(ai, discovered);
    }
  }

  lemma SuffixApart(presets: seq<Preset>, more: seq<Preset>)
    requires SavedApart(presets + more)
    ensures SavedApart(more)
  {
    var all := presets + more;
    forall i, j | 0 <= i < j < |more| && more[i].id == more[j].id ensures Detected(more[i]) {
      assert all[|presets| + i] == more[i] && all[|presets| + j] == more[j];
    }
  }

  /** Saved choices stay apart exactly when the new ones among those discovered are. */
  lemma RefreshedApart(ai: Ai, discovered: seq<Preset>)
    requires SavedApart(ai.presets)
    ensures SavedApart(Refreshed(ai, discovered)) <==> SavedApart(NewOf(ai, discovered))
    ensures SavedApart(discovered) ==> SavedApart(NewOf(ai, discovered))
  {
    var found := NewOf(ai, discovered);
    RefreshedMembers(ai, discovered);
    FilterKeepsApart(ai.presets, (p: Preset) => Preserved(ai, p));
    if SavedApart(found) {
      AppendApart(PreservedOf(ai), found);
    }
    if SavedApart(Refreshed(ai, discovered)) {
      SuffixApart(PreservedOf(ai), found);
    }
    if SavedApart(discovered) {
      FilterKeepsApart(discovered, (p: Preset) => !HasId(PreservedOf(ai), p.id));
    }
  }

  lemma MoreIds(presets: seq<Preset>, p: Preset)
    ensures forall id :: HasId(presets, id) ==> HasId(presets + [p], id)
  {
    forall id | HasId(presets, id) ensures HasId(presets + [p], id) {
      var q :| q in presets && q.id == id;
      assert q in presets + [p];
    }
  }

  lemma SyncedKeeps(ai: Ai, initial: Preset, discovered: seq<Preset>)
    requires IsAi(ai) && SavedApart(ai.presets)
    ensures var n := Synced(ai, initial, discovered);
            && IsAi(n)
            && (SavedApart(n.presets) <==> SavedApart(NewOf(ai, discovered)))
            && (SavedApart(discovered) ==> SavedApart(n.presets))
            && (forall p :: p in discovered ==> HasId(n.presets, p.id))
            && (forall id :: id in n.recentIds.value ==> HasId(n.presets, id))
  {
    var presets, recent := Refreshed(ai, discovered), ai.recentIds.GetOr([]);
    RefreshedIds(ai, discovered);
    RefreshedApart(ai, discovered);
    MoreIds(presets, initial);
    if !HasId(presets, initial.id) {
      OneMoreApart(presets, initial);
    }
    FilterMembers(recent, id => HasId(presets, id));
    FilterNoRepeats(recent, id => HasId(presets, id));
  }

  lemma OneMoreApart(presets: seq<Preset>, p: Preset)
    requires !HasId(presets, p.id)
    ensures SavedApart(presets + [p]) <==> SavedApart(presets)
  {
    if SavedApart(presets) {
      AppendApart(presets, [p]);
    }
    if SavedApart(presets + [p]) {
      assert forall i :: 0 <= i < |presets| ==> (presets + [p])[i] == presets[i];
    }
  }

  /** Nothing the owner chose goes, and nothing appears that was not there, discovered or the initial choice. */
  lemma SyncedMembers(ai: Ai, initial: Preset, discovered: seq<Preset>)
    ensures var n := Synced(ai, initial, discovered);
            && (forall p :: p in ai.presets ==>
                  !("detected_" <= p.id) || p.id == ai.selectedId || p.id == ai.defaultId ==> p in n.presets)
            && (forall p :: p in n.presets ==>
                  || (p in ai.presets && (!("detected_" <= p.id) || p.id == ai.selectedId || p.id == ai.defaultId))
                  || p in discovered || p == initial)
            && (initial.id == "chat-default" ==> HasId(n.presets, initial.id))
            && (initial.id != "chat-default" && initial !in discovered ==> initial in n.presets ==> initial in ai.presets)
            && (forall p :: p in discovered ==> HasId(n.presets, p.id))
  {
    RefreshedMembers(ai, discovered);
  }

  // ---------------------------------------------------------------- provider bindings

  datatype ModelChoice = ModelChoice(cli: Cli, provider: Option<string>, model: Option<string>, efforts: seq<string>)

  predicate Offers(m: ModelChoice, p: Preset) {
    && m.cli == p.cli && m.model == p.model && m.provider.Some? && m.provider.value != ""
    && (p.effort.Some? ==> p.effort.value in m.efforts)
  }

  predicate Given(field: Option<string>) {
    field.Some? && field.value != ""
  }

  /** An unbound choice gets its provider when the catalogue names exactly one. */
  function ProviderFor(catalog: seq<ModelChoice>, p: Preset): Preset {
    var matches := Filter(catalog, m => Offers(m, p));
    if Given(p.provider) || !p.cli.Codex? || !Given(p.model) || |matches| != 1 then p else p.(provider := matches[0].provider)
  }

  /** The entry is of that client and model, names a provider, and knows the effort if one was chosen. */
  predicate Serves(m: ModelChoice, p: Preset) {
    && m.cli == p.cli && m.model == p.model && m.provider != None && m.provider != Some("")
    && (p.effort == None || p.effort.value in m.efforts)
  }

  lemma {:induction false} FilterOne(catalog: seq<ModelChoice>, keep: ModelChoice -> bool)
    ensures |Filter(catalog, keep)| == 0 <==> forall i :: 0 <= i < |catalog| ==> !keep(catalog[i])
    ensures |Filter(catalog, keep)| == 1 <==> exists i :: OnlyOne(catalog, keep, i)
    ensures forall i :: OnlyOne(catalog, keep, i) ==> |Filter(catalog, keep)| == 1 && Filter(catalog, keep)[0] == catalog[i]
  {
    if catalog != [] {
      var rest := catalog[1..];
      FilterOne(rest, keep);
      OnlyOneGrows(catalog, keep);
    }
  }

  predicate OnlyOne(catalog: seq<ModelChoice>, keep: ModelChoice -> bool, i: int) {
    0 <= i < |catalog| && keep(catalog[i]) && forall j :: 0 <= j < |catalog| && j != i ==> !keep(catalog[j])
  }

  lemma OnlyOneGrows(catalog: seq<ModelChoice>, keep: ModelChoice -> bool)
    requires catalog != []
    ensures OnlyOne(catalog, keep, 0) <==> keep(catalog[0]) && forall i :: 0 <= i < |catalog[1..]| ==> !keep(catalog[1..][i])
    ensures forall i :: i > 0 ==> (OnlyOne(catalog, keep, i) <==> !keep(catalog[0]) && OnlyOne(catalog[1..], keep, i - 1))
    ensures (exists i :: OnlyOne(catalog, keep, i)) <==>
              OnlyOne(catalog, keep, 0) || (!keep(catalog[0]) && exists i :: OnlyOne(catalog[1..], keep, i))
  {
    assert forall i :: 0 <= i < |catalog[1..]| ==> catalog[1..][i] == catalog[i + 1];
    forall i | i > 0 ensures OnlyOne(catalog, keep, i) <==> !keep(catalog[0]) && OnlyOne(catalog[1..], keep, i - 1) {
      if !keep(catalog[0]) && OnlyOne(catalog[1..], keep, i - 1) {
        forall j | 0 <= j < |catalog| && j != i ensures !keep(catalog[j]) {
          assert j > 0 ==> catalog[j] == catalog[1..][j - 1];
        }
      }
      if OnlyOne(catalog, keep, i) {
        forall j | 0 <= j < |catalog[1..]| && j != i - 1 ensures !keep(catalog[1..][j]) {
          assert catalog[1..][j] == catalog[j + 1];
        }
      }
    }
    if exists i :: OnlyOne(catalog[1..], keep, i) && !keep(catalog[0]) {
      var i :| OnlyOne(catalog[1..], keep, i) && !keep(catalog[0]);
      assert OnlyOne(catalog, keep, i + 1);
    }
  }

  /** Just this entry serves the choice. */
  predicate OnlyServer(catalog: seq<ModelChoice>, p: Preset, i: int) {
    0 <= i < |catalog| && Serves(catalog[i], p) && forall j :: 0 <= j < |catalog| && j != i ==> !Serves(catalog[j], p)
  }

  /** A Codex choice with a model and without a provider takes the one that serves it, if just one entry does. */
  lemma ProviderForExactly(catalog: seq<ModelChoice>, p: Preset)
    ensures var open := p.cli == Codex && (p.provider == None || p.provider == Some("")) && p.model != None && p.model != Some("");
            && (forall i :: open && OnlyServer(catalog, p, i) ==> ProviderFor(catalog, p) == p.(provider := catalog[i].provider))
            && (!open || !(exists i :: OnlyServer(catalog, p, i)) ==> ProviderFor(catalog, p) == p)
  {
    var offers := m => Offers(m, p);
    FilterOne(catalog, offers);
    forall i ensures OnlyServer(catalog, p, i) <==> OnlyOne(catalog, offers, i) {}
  }

  function NormalPresets(catalog: seq<ModelChoice>, presets: seq<Preset>): seq<Preset> {
    seq(|presets|, i requires 0 <= i < |presets| => ProviderFor(catalog, presets[i]))
  }

  function NormalSession(catalog: seq<ModelChoice>, x: Session): Session {
    if x.preset.Some? then x.(preset := Some(ProviderFor(catalog, x.preset.value))) else x
  }

  function NormalSessions(catalog: seq<ModelChoice>, sessions: seq<Session>): seq<Session> {
    if sessions == [] then [] else [NormalSession(catalog, sessions[0])] + NormalSessions(catalog, sessions[1..])
  }

  function Normal(catalog: seq<ModelChoice>, s: State): State
    requires s.ai.Some?
  {
    s.(ai := Some(s.ai.value.(presets := NormalPresets(catalog, s.ai.value.presets))),
       active := if s.active.Some? then Some(NormalSession(catalog, s.active.value)) else None,
       sessions := NormalSessions(catalog, s.sessions))
  }

  lemma NormalPresetsKeep(catalog: seq<ModelChoice>, ai: Ai)
    requires IsAi(ai) && SavedApart(ai.presets)
    ensures var n := ai.(presets := NormalPresets(catalog, ai.presets)); IsAi(n) && SavedApart(n.presets)
  {
    var presets := NormalPresets(catalog, ai.presets);
    forall id | HasId(ai.presets, id) ensures HasId(presets, id) {
      var i :| 0 <= i < |ai.presets| && ai.presets[i].id == id;
      assert presets[i] in presets;
    }
  }

  lemma NormalSessionKeeps(catalog: seq<ModelChoice>, x: Session)
    requires SoundSession(x)
    ensures SoundSession(NormalSession(catalog, x)) && Evolves(x, NormalSession(catalog, x))
  {
  }

  lemma BothGrow(before: multiset<Session>, after: multiset<Session>, x: Session, y: Session)
    requires BookContinues(before, after) && Evolves(x, y)
    ensures BookContinues(before + multiset{x}, after + multiset{y})
  {
    forall a | a in before + multiset{x} ensures InBook(after + multiset{y}, a) {
      assert y in after + multiset{y};
      if a in before {
        assert InBook(after, a);
        var b :| b in after && Evolves(a, b);
        assert b in after + multiset{y};
      }
    }
  }

  /** Every conversation of the result has the identifier of one of the list. */
  lemma {:induction false} NormalIds(catalog: seq<ModelChoice>, sessions: seq<Session>, id: string)
    requires forall x :: x in sessions ==> x.id != id
    ensures forall y :: y in NormalSessions(catalog, sessions) ==> y.id != id
  {
    if sessions != [] {
      NormalIds(catalog, sessions[1..], id);
      assert sessions[0].id != id;
    }
  }

  lemma {:induction false} NormalBook(catalog: seq<ModelChoice>, sessions: seq<Session>)
    requires SoundBook(multiset(sessions))
    ensures SoundBook(multiset(NormalSessions(catalog, sessions)))
    ensures BookContinues(multiset(sessions), multiset(NormalSessions(catalog, sessions)))
  {
    if sessions != [] {
      var x, rest := sessions[0], sessions[1..];
      var y, done := NormalSession(catalog, x), NormalSessions(catalog, rest);
      assert sessions == [x] + rest;
      RestIsSound(x, rest);
      NormalBook(catalog, rest);
      NormalSessionKeeps(catalog, x);
      NormalIds(catalog, rest, x.id);
      NormalStep(x, rest, y, done);
    }
  }

  lemma NormalStep(x: Session, rest: seq<Session>, y: Session, done: seq<Session>)
    requires SoundBook(multiset(done)) && SoundSession(y) && (forall z :: z in done ==> z.id != y.id)
    requires BookContinues(multiset(rest), multiset(done)) && Evolves(x, y)
    ensures SoundBook(multiset([y] + done)) && BookContinues(multiset([x] + rest), multiset([y] + done))
  {
    AddToBook(multiset(done), y);
    BothGrow(multiset(rest), multiset(done), x, y);
    assert multiset([y] + done) == multiset(done) + multiset{y};
    assert multiset([x] + rest) == multiset(rest) + multiset{x};
  }

  lemma RestIsSound(x: Session, rest: seq<Session>)
    requires SoundBook(multiset([x] + rest))
    ensures SoundSession(x) && SoundBook(multiset(rest)) && forall y :: y in rest ==> y.id != x.id
  {
    var book := multiset([x] + rest);
    assert book == multiset(rest) + multiset{x};
    forall y | y in rest ensures y.id != x.id && multiset(rest)[y] == 1 {
      assert y in book && book[y] == 1 && x in book && book[x] == 1;
    }
  }

  lemma NormalKeeps(catalog: seq<ModelChoice>, s: State)
    requires Sound(s) && s.ai.Some?
    ensures Transition(s, Normal(catalog, s))
  {
    var all := s.sessions + if s.active.Some? then [s.active.value] else [];
    assert multiset(all) == Book(s);
    NormalBook(catalog, all);
    NormalAppend(catalog, s.sessions, all[|s.sessions|..]);
    var t := Normal(catalog, s);
    assert s.active.Some? ==> NormalSessions(catalog, [s.active.value]) == [t.active.value];
    assert multiset(NormalSessions(catalog, all)) == Book(t);
    NormalPresetsKeep(catalog, s.ai.value);
  }

  lemma {:induction false} NormalAppend(catalog: seq<ModelChoice>, a: seq<Session>, b: seq<Session>)
    ensures NormalSessions(catalog, a + b) == NormalSessions(catalog, a) + NormalSessions(catalog, b)
  {
    if a == [] {
      assert a + b == b;
    } else {
      assert (a + b)[1..] == a[1..] + b;
      NormalAppend(catalog, a[1..], b);
    }
  }
}
