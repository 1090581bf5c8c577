/** One native session for each other login that served a conversation. */
module LinkedLogins {
  import opened Options
  import opened Setups
  import opened Conversations
  import opened Capture

  predicate ServedBy(l: Linked, p: Preset) {
    SameEngine(Some(l.cli), l.authProfile, p)
  }

  /** The first link of the preset's engine; past the end when there is none. */
  function LinkAt(links: seq<Linked>, p: Preset): (k: nat)
    ensures k <= |links| && (k < |links| ==> ServedBy(links[k], p)) && forall i :: 0 <= i < k ==> !ServedBy(links[i], p)
  {
    if links == [] || ServedBy(links[0], p) then 0 else 1 + LinkAt(links[1..], p)
  }

  const MOST_LINKS := 16

  /** The latest link last; the oldest one goes when there would be a seventeenth. */
  function WithLink(links: seq<Linked>, l: Linked): seq<Linked> {
    var all := links + [l];
    if |all| <= MOST_LINKS then all else all[|all| - MOST_LINKS..]
  }

  lemma ApartAppend(links: seq<Linked>, l: Linked)
    requires LinkedApart(links) && forall m :: m in links ==> !SameLogin(m, l)
    ensures LinkedApart(links + [l])
  {
  }

  lemma ApartSuffix(all: seq<Linked>, start: nat)
    requires LinkedApart(all) && start <= |all|
    ensures LinkedApart(all[start..]) && forall m :: m in all[start..] ==> m in all
  {
    forall i, j | 0 <= i < j < |all[start..]| ensures !SameLogin(all[start..][i], all[start..][j]) {
      assert all[start..][i] == all[start + i] && all[start..][j] == all[start + j];
    }
  }

  lemma WithLinkApart(links: seq<Linked>, l: Linked)
    requires LinkedApart(links) && forall m :: m in links ==> !SameLogin(m, l)
    ensures LinkedApart(links + [l]) && LinkedApart(WithLink(links, l)) && |WithLink(links, l)| <= MOST_LINKS
            && l in WithLink(links, l)
    ensures forall m :: m in WithLink(links, l) ==> m in links || m == l
  {
    var all, kept := links + [l], WithLink(links, l);
    ApartAppend(links, l);
    ApartSuffix(all, |all| - |kept|);
    assert kept == all[|all| - |kept|..] && kept[|kept| - 1] == l;
  }

  lemma NoLinkNone(links: seq<Linked>, p: Preset)
    requires LinkAt(links, p) == |links|
    ensures forall m :: m in links ==> !ServedBy(m, p)
  {
  }

  /** Only the oldest of sixteen links gives way to a seventeenth. */
  lemma WithLinkDrops(links: seq<Linked>, l: Linked)
    requires LinkedApart(links) && |links| <= MOST_LINKS && forall m :: m in links ==> !SameLogin(m, l)
    ensures forall k :: 0 <= k < |links| ==> (links[k] in WithLink(links, l) <==> k > 0 || |links| < MOST_LINKS)
  {
    var all, kept := links + [l], WithLink(links, l);
    var start := |all| - |kept|;
    WithLinkApart(links, l);
    forall k | 0 <= k < |links| ensures links[k] in kept <==> k > 0 || |links| < MOST_LINKS {
      assert all[k] == links[k];
      if start <= k {
        assert kept[k - start] == links[k];
      } else {
        NotAmong(all, k, start);
      }
    }
  }

  lemma WithLinkKeeps(x: Session, p: Preset, linkId: string)
    requires SoundSession(x) && x.cli.Some? && !OfEngine(x, p) && LinkAt(x.linked, p) == |x.linked|
    ensures var l := Linked(p.cli, p.authProfile, linkId, None, false);
            var y := x.(linked := WithLink(x.linked, l));
            && SoundSession(y) && Evolves(x, y) && l in y.linked
            && (forall k :: 0 <= k < |x.linked| ==> (x.linked[k] in y.linked <==> k > 0 || |x.linked| < 16))
  {
    var l := Linked(p.cli, p.authProfile, linkId, None, false);
    NoLinkNone(x.linked, p);
    assert forall m :: m in x.linked ==> !SameLogin(m, l);
    WithLinkApart(x.linked, l);
    WithLinkDrops(x.linked, l);
  }

  lemma NotAmong(all: seq<Linked>, k: nat, start: nat)
    requires LinkedApart(all) && k < start <= |all|
    ensures all[k] !in all[start..]
  {
    forall i | start <= i < |all| ensures all[k] != all[i] {
      assert !SameLogin(all[k], all[i]);
    }
  }

  /** A link may get its native session, be started or be renamed: its login stays what it is. */
  lemma EditLinkKeeps(x: Session, k: nat, m: Linked)
    requires SoundSession(x) && k < |x.linked| && SameLogin(x.linked[k], m)
    ensures var y := x.(linked := x.linked[k := m]); SoundSession(y) && Evolves(x, y)
  {
    var links := x.linked[k := m];
    forall i, j | 0 <= i < j < |links| ensures !SameLogin(links[i], links[j]) {
      assert !SameLogin(x.linked[i], x.linked[j]);
    }
    forall l | l in links ensures x.cli != Some(l.cli) || x.authProfile != l.authProfile {
      var i :| 0 <= i < |links| && links[i] == l;
      assert x.linked[i] in x.linked;
    }
  }

  /** Clients that report their own native session identifier. */
  predicate Reports(cli: Cli) {
    cli.Codex? || cli.CodexGui? || cli.Opencode?
  }

  /** The engine that serves a conversation: its own, one of its links, or none yet. */
  datatype Server = Own | AtLink(k: nat) | NoServer

  function ServerOf(x: Session, p: Preset): (r: Server)
    ensures r.AtLink? ==> r.k < |x.linked| && ServedBy(x.linked[r.k], p)
  {
    if OfEngine(x, p) then Own else if LinkAt(x.linked, p) < |x.linked| then AtLink(LinkAt(x.linked, p)) else NoServer
  }

  /** The native session that a preset's engine resumes in this conversation, when there is one. */
  function NativeOf(x: Session, p: Preset): Option<string> {
    match ServerOf(x, p)
    case Own => x.native
    case AtLink(k) => x.linked[k].native
    case NoServer => None
  }

  /** The identifier under which the engine would begin or resume its session. */
  function NextIdOf(x: Session, p: Preset): string {
    match ServerOf(x, p)
    case Own => x.native.GetOr(x.id)
    case AtLink(k) => x.linked[k].native.GetOr(x.linked[k].sessionId)
    case NoServer => ""
  }

  function StartedOf(x: Session, p: Preset): bool {
    match ServerOf(x, p)
    case Own => x.hasStarted
    case AtLink(k) => x.linked[k].hasStarted
    case NoServer => false
  }

  /** A login that serves nothing yet has neither a session nor a start. */
  lemma NoServerNoSession(x: Session, p: Preset)
    requires x.cli != Some(p.cli) || x.authProfile != p.authProfile
    requires forall l :: l in x.linked ==> l.cli != p.cli || l.authProfile != p.authProfile
    ensures NativeOf(x, p) == None && !StartedOf(x, p)
  {
    assert forall k :: 0 <= k < |x.linked| ==> !ServedBy(x.linked[k], p);
  }

  /** The engine's session is known by the native identifier from now on. */
  function NativeSaved(x: Session, p: Preset, native: string): Session {
    match ServerOf(x, p)
    case Own => x.(native := Some(native), hasStarted := true)
    case AtLink(k) => x.(linked := x.linked[k := x.linked[k].(native := Some(native), hasStarted := true)])
    case NoServer => x
  }

  /** Saved under one login only: every other login resumes what it resumed before. */
  lemma NativeSavedKeeps(x: Session, p: Preset, native: string)
    requires SoundSession(x) && !ServerOf(x, p).NoServer? && (NativeOf(x, p).Some? ==> NativeOf(x, p).value == native)
    ensures var y := NativeSaved(x, p, native);
            && SoundSession(y) && Evolves(x, y) && NativeOf(y, p) == Some(native) && StartedOf(y, p)
            && forall q :: !SameEngine(Some(p.cli), p.authProfile, q) ==>
               NativeOf(y, q) == NativeOf(x, q) && StartedOf(y, q) == StartedOf(x, q)
  {
    if ServerOf(x, p).AtLink? {
      var k := ServerOf(x, p).k;
      EditLinkKeeps(x, k, x.linked[k].(native := Some(native), hasStarted := true));
      forall q ensures LinkAt(NativeSaved(x, p, native).linked, q) == LinkAt(x.linked, q) {
        SameLinkAt(x.linked, NativeSaved(x, p, native).linked, q);
      }
    }
  }

  lemma {:induction false} SameLinkAt(a: seq<Linked>, b: seq<Linked>, p: Preset)
    requires |a| == |b| && forall i :: 0 <= i < |a| ==> SameLogin(a[i], b[i])
    ensures LinkAt(a, p) == LinkAt(b, p)
  {
    if a != [] {
      SameLinkAt(a[1..], b[1..], p);
    }
  }

  /**
   * After an attempt: a session that began work is resumed next time; one that was rejected may have
   * claimed its identifier, so it gets another. Reporting clients start only with a native session.
   */
  function AttemptSettled(x: Session, p: Preset, started: bool, newId: string): Session {
    if StartedOf(x, p) || Reports(p.cli) then x
    else
      match ServerOf(x, p)
      case Own => if started then x.(hasStarted := true) else x.(native := Some(newId))
      case AtLink(k) => x.(linked := x.linked[k := if started then x.linked[k].(hasStarted := true)
          else x.linked[k].(sessionId := newId)])
      case NoServer => x
  }

  lemma AttemptSettledKeeps(x: Session, p: Preset, started: bool, newId: string)
    requires SoundSession(x)
    ensures var y := AttemptSettled(x, p, started, newId);
            && SoundSession(y) && Evolves(x, y)
            && (StartedOf(x, p) ==> y == x)
            && (p.cli in {Codex, CodexGui, Opencode} || ServerOf(x, p).NoServer? ==> y == x)
            && (!ServerOf(x, p).NoServer? && p.cli in {Grok, Claude, Pi} ==>
                  && StartedOf(y, p) == (StartedOf(x, p) || started)
                  && (!StartedOf(x, p) && !started && (OfEngine(x, p) || NativeOf(x, p) == None) ==> NextIdOf(y, p) == newId))
  {
    if ServerOf(x, p).AtLink? && AttemptSettled(x, p, started, newId) != x {
      var k := ServerOf(x, p).k;
      var y := AttemptSettled(x, p, started, newId);
      EditLinkKeeps(x, k, y.linked[k]);
      SameLinkAt(x.linked, y.linked, p);
    }
  }
}
