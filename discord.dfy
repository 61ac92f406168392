/**
 * The Discord presence broadcaster: a game component polled once per frame.
 * It scans the local ports for the Discord client, keeps at most one send in
 * flight, and sends the most recent presence the game asked for. The socket,
 * the connect and send tasks and the clock are outside the model: each frame
 * tells `Update` whether the connect task has completed, whether the socket is
 * open and whether the last send task has completed.
 */
module Discord {
  import opened Optional
  import opened Text
  import Icons
  import opened Presence

  const MinPort: int := 6463
  const MaxPort: int := 6472
  /** The application id (430794114037055489) as it appears in the address. */
  const ClientIdText: string := "430794114037055489"
  /** What precedes the port in every connect address. */
  const Host: string := "ws://127.0.0.1:"
  /** What follows the port: the application id and the message encoding. */
  const Query: string := "/?client_id=" + ClientIdText + "&encoding=json"

  /**
   * The address a connect attempt on `port` opens: the local host, then the
   * port's decimal text, which reads back as the port, then the query.
   */
  function ServerURL(port: int): (url: string)
    ensures Host <= url
    ensures var k := |IntToString(port)|; |Host| + k <= |url| && ParseInt(url[|Host|..|Host| + k]) == port
  {
    IntToStringRoundTrip(port);
    MiddleOfConcat(Host, IntToString(port), Query);
    Host + IntToString(port) + Query
  }

  lemma FourDigits(n: int)
    requires 1000 <= n < 10000
    ensures |IntToString(n)| == 4
  {
    var a, b, c := n / 10, n / 100, n / 1000;
    assert 100 <= a < 1000 && b == a / 10 && 10 <= b < 100 && c == b / 10 && 1 <= c < 10;
    assert |NatToString(c)| == 1;
    assert |NatToString(b)| == 2;
    assert |NatToString(a)| == 3;
  }

  /** Distinct ports are contacted at distinct addresses. */
  lemma ServerURLNamesPort(p: int, q: int)
    requires MinPort <= p <= MaxPort && MinPort <= q <= MaxPort
    requires ServerURL(p) == ServerURL(q)
    ensures p == q
  {
    var n := |Host|;
    FourDigits(p);
    FourDigits(q);
    assert ServerURL(p)[n..n + 4] == IntToString(p);
    assert ServerURL(q)[n..n + 4] == IntToString(q);
    IntToStringInjective(p, q);
  }

  /** The latest activity handed to the socket, if any. */
  function LastSent(sent: seq<Activity>): Option<Activity> {
    if sent == [] then None else Some(sent[|sent| - 1])
  }

  /** The image hashes one cached lookup of `icon` performs: one on a miss for an icon with a local image, none otherwise. */
  function LookupHashes(cache: map<string, string>, icon: string, env: Icons.IconEnv): nat {
    if icon !in cache && Icons.HashesIcon(icon, env) then 1 else 0
  }

  /** What the broadcaster reads of the game: the user's settings, the icon resolver's inputs and the map catalogue. */
  datatype World = World(settings: Settings, icons: Icons.IconEnv, areas: seq<Area>)

  /**
   * The presence the game asks for: the menu presence without a session, the
   * level presence with one, its icon looked up through `cache`.
   */
  function Requested(session: Option<Session>, world: World, start: int, cache: map<string, string>): Activity {
    if session.None? then MenuPresence(world.settings)
    else
      var s := session.value;
      LevelPresence(s, world.settings, start, LevelIcon(s, world.settings, cache, world.icons), OnlyMapInLevelSet(world.areas, s.area))
  }

  /** Scans the catalogue for another map of the same level set, stopping at the first. */
  method IsOnlyMapInLevelSet(areas: seq<Area>, area: Area) returns (only: bool)
    ensures only <==> OnlyMapInLevelSet(areas, area)
    ensures !only ==> exists i :: 0 <= i < |areas| && areas[i].levelSet == area.levelSet && areas[i].sid != area.sid
  {
    for i := 0 to |areas|
      invariant forall j :: 0 <= j < i ==> !(areas[j].levelSet == area.levelSet && areas[j].sid != area.sid)
    {
      if areas[i].levelSet == area.levelSet && areas[i].sid != area.sid {
        return false;
      }
    }
    return true;
  }

  /**
   * The status line as the presence builder writes it: the berry count, then
   * " | " if anything is written already, then the death count.
   */
  method BuildState(s: Session, cfg: Settings) returns (state: string)
    ensures state == StateLine(s, cfg)
  {
    state := "";
    if cfg.showBerries {
      state := Pluralize(s.strawberries, "berry", "berries");
    }
    if cfg.showDeaths {
      if state != "" {
        state := state + " | ";
      }
      state := state + Pluralize(s.deaths, "death", "deaths");
    }
    StateLineFragments(s, cfg);
  }

  /** The process-wide slot that holds the live broadcaster, if any. */
  class Registry {
    var instance: Broadcaster?

    constructor ()
      ensures instance == null
    {
      instance := null;
    }

    /** Returns the live broadcaster, creating and registering one when the slot is empty. */
    method CreateInstance() returns (d: Broadcaster)
      modifies this
      ensures instance == d
      ensures old(instance) != null ==> d == old(instance)
      ensures old(instance) == null ==> fresh(d) && d.Valid() && d.Initial() && d.registry == this
    {
      if instance != null {
        d := instance;
        return;
      }
      d := new Broadcaster(this);
      instance := d;
    }
  }

  class Broadcaster {
    const registry: Registry

    // connection scan
    var currentPort: int
    /** The address of the latest connect attempt. */
    var connectURL: string
    /** Connect attempts issued so far. */
    ghost var attempts: nat
    /** Frames that found the connect attempt completed but the socket not open. */
    ghost var failures: nat
    var wasConnected: bool
    /** How often the one-time "connected" notice (log line, warning fade) ran. */
    ghost var connectedNotices: nat

    // sending
    /** A send task exists: the latest send may still be in flight. */
    var sendIssued: bool
    /** Every activity handed to the socket, in order. */
    ghost var sent: seq<Activity>
    var nextPresence: Option<Activity>
    var mustUpdatePresence: bool

    // payload
    var startTimestamp: int
    var iconURLCache: map<string, string>
    /** How often an icon's image was hashed. */
    ghost var hashComputations: nat

    var disposed: bool
    ghost var disposeCount: nat

    ghost predicate Valid()
      reads this`currentPort, this`connectURL, this`attempts, this`failures, this`disposed, this`disposeCount,
        this`wasConnected, this`connectedNotices, this`sendIssued, this`sent, this`nextPresence, this`mustUpdatePresence
    {
      && MinPort <= currentPort <= MaxPort
      && attempts == failures + 1
      // before disposal the port is exactly as far along as the failed frames took it
      && (!disposed ==> currentPort == MinPort + failures && disposeCount == 0)
      && (disposed ==> disposeCount > 0)
      && connectedNotices == (if wasConnected then 1 else 0)
      && (sendIssued <==> sent != [])
      && (sent != [] ==> wasConnected)
      // the dirty flag: a pending presence exists, and a clean flag means the
      // stored presence is the last one sent
      && (mustUpdatePresence ==> nextPresence.Some?)
      && (!mustUpdatePresence ==> nextPresence == LastSent(sent))
    }

    /** The state right after construction: first port, nothing pending, nothing sent. */
    ghost predicate Initial()
      reads this
    {
      && currentPort == MinPort && failures == 0 && attempts == 1
      && !wasConnected && !sendIssued && sent == []
      && nextPresence == None && !mustUpdatePresence
      && startTimestamp == 0 && iconURLCache == map[] && hashComputations == 0
      && !disposed
    }

    constructor (registry: Registry)
      ensures Valid() && Initial() && this.registry == registry && connectURL == ServerURL(MinPort)
    {
      this.registry := registry;
      currentPort := MinPort;
      failures := 0;
      wasConnected := false;
      connectedNotices := 0;
      sendIssued := false;
      sent := [];
      nextPresence := None;
      mustUpdatePresence := false;
      startTimestamp := 0;
      iconURLCache := map[];
      hashComputations := 0;
      disposed := false;
      disposeCount := 0;
      connectURL := ServerURL(MinPort);
      attempts := 1;
    }

    /**
     * Issues a connect attempt, first moving to the next port when asked to.
     * On the last port there is no next one: the broadcaster disposes itself,
     * and the attempt is still issued on the last port.
     */
    method Connect(next: bool)
      requires MinPort <= currentPort <= MaxPort
      modifies this`currentPort, this`connectURL, this`attempts, this`disposed, this`disposeCount, registry`instance
      ensures MinPort <= currentPort <= MaxPort
      ensures connectURL == ServerURL(currentPort) && attempts == old(attempts) + 1
      ensures next && old(currentPort) < MaxPort ==>
        currentPort == old(currentPort) + 1 && unchanged(this`disposed, this`disposeCount, registry)
      ensures next && old(currentPort) == MaxPort ==>
        currentPort == MaxPort && disposed && disposeCount == old(disposeCount) + 1 && registry.instance == null
      ensures !next ==> currentPort == old(currentPort) && unchanged(this`disposed, this`disposeCount, registry)
    {
      if next {
        if currentPort < MaxPort {
          currentPort := currentPort + 1;
        } else {
          Dispose();
        }
      }
      connectURL := ServerURL(currentPort);
      attempts := attempts + 1;
    }

    /** Marks the broadcaster disposed and empties the process-wide slot. */
    method Dispose()
      modifies this`disposed, this`disposeCount, registry`instance
      ensures disposed && disposeCount == old(disposeCount) + 1 && registry.instance == null
    {
      disposed := true;
      disposeCount := disposeCount + 1;
      registry.instance := null;
    }

    /** The per-frame poll. */
    method Update(connectCompleted: bool, socketOpen: bool, sendCompleted: bool)
      requires Valid() && !disposed
      modifies this`currentPort, this`connectURL, this`attempts, this`failures, this`disposed, this`disposeCount,
        registry`instance, this`wasConnected, this`connectedNotices, this`sendIssued, this`sent, this`mustUpdatePresence
      ensures Valid()
      ensures |old(sent)| <= |sent| <= |old(sent)| + 1 && sent[..|old(sent)|] == old(sent)
      // a connect attempt still running: nothing changes
      ensures !connectCompleted ==> unchanged(this) && unchanged(registry)
      // the attempt ended without an open socket: next port, or give up on the last one
      ensures connectCompleted && !socketOpen ==>
        && failures == old(failures) + 1 && attempts == old(attempts) + 1 && connectURL == ServerURL(currentPort)
        && (old(currentPort) < MaxPort ==> currentPort == old(currentPort) + 1 && !disposed && unchanged(registry))
        && (old(currentPort) == MaxPort ==> currentPort == MaxPort && disposed && disposeCount == 1 && registry.instance == null)
        && unchanged(this`wasConnected, this`connectedNotices, this`sendIssued, this`sent, this`mustUpdatePresence)
      // the socket is open: connected, with a notice on the first such frame only
      ensures connectCompleted && socketOpen ==>
        && wasConnected && (connectedNotices == old(connectedNotices) + 1 <==> !old(wasConnected))
        && unchanged(this`currentPort, this`connectURL, this`attempts, this`failures, this`disposed, registry)
      // a send still in flight: no new send, the pending presence waits
      ensures connectCompleted && socketOpen && old(sendIssued) && !sendCompleted ==>
        unchanged(this`sent, this`mustUpdatePresence, this`sendIssued)
      // no send in flight: the pending presence, if any, is sent exactly once and the flag cleared
      ensures connectCompleted && socketOpen && !(old(sendIssued) && !sendCompleted) ==>
        && !mustUpdatePresence
        && (old(mustUpdatePresence) ==> sent == old(sent) + [old(nextPresence).value] && sendIssued)
        && (!old(mustUpdatePresence) ==> sent == old(sent) && sendIssued == old(sendIssued))
    {
      if !connectCompleted {
        return;
      }
      if !socketOpen {
        ConnectFailed();
        return;
      }
      ConnectedFrame(sendCompleted);
    }

    /** The connect attempt ended without an open socket: count the failure and move on to the next port. */
    method ConnectFailed()
      requires Valid() && !disposed
      modifies this`currentPort, this`connectURL, this`attempts, this`failures, this`disposed, this`disposeCount, registry`instance
      ensures Valid()
      ensures failures == old(failures) + 1 && attempts == old(attempts) + 1 && connectURL == ServerURL(currentPort)
      ensures old(currentPort) < MaxPort ==> currentPort == old(currentPort) + 1 && !disposed && unchanged(registry)
      ensures old(currentPort) == MaxPort ==> currentPort == MaxPort && disposed && disposeCount == 1 && registry.instance == null
    {
      Connect(true);
      failures := failures + 1;
    }

    /**
     * A frame with the socket open: the one-time connected notice, then the
     * pending presence is sent unless an earlier send is still in flight.
     */
    method ConnectedFrame(sendCompleted: bool)
      requires Valid()
      modifies this`wasConnected, this`connectedNotices, this`sendIssued, this`sent, this`mustUpdatePresence
      ensures Valid()
      ensures |old(sent)| <= |sent| <= |old(sent)| + 1 && sent[..|old(sent)|] == old(sent)
      ensures wasConnected && (connectedNotices == old(connectedNotices) + 1 <==> !old(wasConnected))
      ensures old(sendIssued) && !sendCompleted ==> unchanged(this`sent, this`mustUpdatePresence, this`sendIssued)
      ensures !(old(sendIssued) && !sendCompleted) ==>
        && !mustUpdatePresence
        && (old(mustUpdatePresence) ==> sent == old(sent) + [old(nextPresence).value] && sendIssued)
        && (!old(mustUpdatePresence) ==> sent == old(sent) && sendIssued == old(sendIssued))
    {
      if !wasConnected {
        connectedNotices := connectedNotices + 1;
      }
      wasConnected := true;
      if sendIssued && !sendCompleted {
        return;
      }
      if mustUpdatePresence {
        sent := sent + [nextPresence.value];
        sendIssued := true;
        mustUpdatePresence := false;
      }
    }

    /** The game is exiting. */
    method OnGameExit()
      requires Valid()
      modifies this`disposed, this`disposeCount, registry`instance
      ensures Valid() && disposed && registry.instance == null
    {
      Dispose();
    }

    /** The icon URL for a map icon, answered from the cache when it holds one. */
    method GetMapIconURLCached(icon: string, env: Icons.IconEnv) returns (url: string)
      modifies this`iconURLCache, this`hashComputations
      ensures url == Icons.CachedIconURL(old(iconURLCache), icon, env)
      ensures iconURLCache == Icons.Remember(old(iconURLCache), icon, env)
      ensures icon in old(iconURLCache) ==> hashComputations == old(hashComputations)
      ensures icon !in old(iconURLCache) ==>
        hashComputations == old(hashComputations) + (if Icons.HashesIcon(icon, env) then 1 else 0)
    {
      if icon in iconURLCache {
        return iconURLCache[icon];
      }
      url := Icons.GetMapIconURL(icon, env);
      if Icons.HashesIcon(icon, env) {
        hashComputations := hashComputations + 1;
      }
      iconURLCache := iconURLCache[icon := url];
    }

    /** Builds the presence for the menus (no session) or the given session, stores it and marks it pending. */
    method UpdatePresence(session: Option<Session>, world: World)
      requires Valid()
      modifies this`nextPresence, this`mustUpdatePresence, this`iconURLCache, this`hashComputations
      ensures Valid() && mustUpdatePresence
      ensures nextPresence == Some(Requested(session, world, startTimestamp, old(iconURLCache)))
      ensures session.Some? && world.settings.showMap && world.settings.showIcon ==>
        && iconURLCache == Icons.Remember(old(iconURLCache), session.value.area.icon, world.icons)
        && hashComputations == old(hashComputations) + LookupHashes(old(iconURLCache), session.value.area.icon, world.icons)
      ensures !(session.Some? && world.settings.showMap && world.settings.showIcon) ==>
        unchanged(this`iconURLCache, this`hashComputations)
    {
      var presence := RequestedActivity(session, world);
      MarkPending(presence);
    }

    /** Stores a presence as the pending one and raises the dirty flag. */
    method MarkPending(presence: Activity)
      requires Valid()
      modifies this`nextPresence, this`mustUpdatePresence
      ensures Valid() && mustUpdatePresence && nextPresence == Some(presence)
    {
      nextPresence := Some(presence);
      mustUpdatePresence := true;
    }

    /** The activity for the menus (no session) or for the given session. */
    method RequestedActivity(session: Option<Session>, world: World) returns (presence: Activity)
      modifies this`iconURLCache, this`hashComputations
      ensures presence == Requested(session, world, startTimestamp, old(iconURLCache))
      ensures session.Some? && world.settings.showMap && world.settings.showIcon ==>
        && iconURLCache == Icons.Remember(old(iconURLCache), session.value.area.icon, world.icons)
        && hashComputations == old(hashComputations) + LookupHashes(old(iconURLCache), session.value.area.icon, world.icons)
      ensures !(session.Some? && world.settings.showMap && world.settings.showIcon) ==>
        unchanged(this`iconURLCache, this`hashComputations)
    {
      if session.None? {
        presence := MenuActivity(world.settings);
      } else {
        presence := LevelActivity(session.value, world);
      }
    }

    /** The menu half of UpdatePresence: the activity outside a level. */
    static method MenuActivity(cfg: Settings) returns (presence: Activity)
      ensures presence == MenuPresence(cfg)
    {
      presence := Activity(None, Some("In Menus"), None, None);
      if cfg.showIcon {
        presence := presence.(assets := Some(Assets(EverestIcon, "Everest", CelesteIcon, "Celeste")));
      }
    }

    /** The in-level half of UpdatePresence: the activity for a running session. */
    method LevelActivity(s: Session, world: World) returns (presence: Activity)
      modifies this`iconURLCache, this`hashComputations
      ensures presence == LevelPresence(s, world.settings, startTimestamp,
        LevelIcon(s, world.settings, old(iconURLCache), world.icons), OnlyMapInLevelSet(world.areas, s.area))
      ensures world.settings.showMap && world.settings.showIcon ==>
        && iconURLCache == Icons.Remember(old(iconURLCache), s.area.icon, world.icons)
        && hashComputations == old(hashComputations) + LookupHashes(old(iconURLCache), s.area.icon, world.icons)
      ensures !(world.settings.showMap && world.settings.showIcon) ==>
        unchanged(this`iconURLCache, this`hashComputations)
    {
      var cfg := world.settings;
      var area := s.area;
      var mapName := "a map";
      var fullName := "Everest";
      var icon := EverestIcon;
      var side := "";
      var room := "";
      if cfg.showMap {
        mapName := area.displayName;
        if cfg.showIcon {
          icon := GetMapIconURLCached(area.icon, world.icons);
        }
        if cfg.showSide && area.hasBSide {
          side := " | " + [ModeLetter(s.mode)] + "-Side";
        }
        if cfg.showRoom {
          room := " | Room " + s.level;
        }
        var only := IsOnlyMapInLevelSet(world.areas, area);
        if !only {
          fullName := area.displayLevelSet + " | "
            + (if s.chapterIndex >= 0 then "Chapter " + IntToString(s.chapterIndex) + " - " else "")
            + mapName;
        } else {
          fullName := mapName;
        }
      }
      assert mapName == MapName(s, cfg) && side == SideSuffix(s, cfg) && room == RoomSuffix(s, cfg);
      assert fullName == FullName(s, cfg, OnlyMapInLevelSet(world.areas, area));
      assert icon == LevelIcon(s, cfg, old(iconURLCache), world.icons);

      var state := BuildState(s, cfg);
      presence := Activity(Some(state), Some("Playing " + mapName + side + room), Some(startTimestamp), None);
      if cfg.showIcon {
        presence := presence.(assets := Some(Assets(icon, fullName, CelesteIcon, "Celeste")));
      }
    }

    /** The main menu is shown. */
    method OnMainMenu(world: World)
      requires Valid()
      modifies this`nextPresence, this`mustUpdatePresence, this`iconURLCache, this`hashComputations
      ensures Valid() && mustUpdatePresence && nextPresence == Some(MenuPresence(world.settings))
      ensures unchanged(this`iconURLCache, this`hashComputations)
    {
      UpdatePresence(None, world);
    }

    /** A level is loaded; `now` is the current time in whole seconds since the Unix epoch. */
    method OnLoadLevel(s: Session, now: int, world: World)
      requires Valid()
      modifies this`startTimestamp, this`nextPresence, this`mustUpdatePresence, this`iconURLCache, this`hashComputations
      ensures Valid() && mustUpdatePresence
      ensures startTimestamp == if old(startTimestamp) == 0 then now else old(startTimestamp)
      ensures nextPresence == Some(LevelPresence(s, world.settings, startTimestamp,
        LevelIcon(s, world.settings, old(iconURLCache), world.icons), OnlyMapInLevelSet(world.areas, s.area)))
      ensures world.settings.showMap && world.settings.showIcon ==>
        && iconURLCache == Icons.Remember(old(iconURLCache), s.area.icon, world.icons)
        && hashComputations == old(hashComputations) + LookupHashes(old(iconURLCache), s.area.icon, world.icons)
      ensures !(world.settings.showMap && world.settings.showIcon) ==>
        unchanged(this`iconURLCache, this`hashComputations)
    {
      if startTimestamp == 0 {
        startTimestamp := now;
      }
      UpdatePresence(Some(s), world);
    }

    /** The player leaves a level. */
    method OnLevelExit(world: World)
      requires Valid()
      modifies this`startTimestamp, this`nextPresence, this`mustUpdatePresence, this`iconURLCache, this`hashComputations
      ensures Valid() && mustUpdatePresence
      ensures startTimestamp == 0 && nextPresence == Some(MenuPresence(world.settings))
      ensures unchanged(this`iconURLCache, this`hashComputations)
    {
      startTimestamp := 0;
      UpdatePresence(None, world);
    }
  }

  /**
   * The game's frame loop with no Discord client listening: every connect
   * attempt completes without an open socket. The broadcaster gives up after
   * one failed attempt per port, disposing itself exactly once, on the last port.
   */
  method ScanWithoutClient(reg: Registry) returns (d: Broadcaster, frames: nat)
    requires reg.instance == null
    modifies reg
    ensures frames == MaxPort - MinPort + 1
    ensures d.disposed && d.disposeCount == 1 && d.currentPort == MaxPort && reg.instance == null
    ensures d.attempts == frames + 1 && d.sent == []
  {
    d := reg.CreateInstance();
    frames := 0;
    while !d.disposed
      invariant d.Valid() && d.registry == reg && fresh(d)
      invariant frames == d.failures && d.sent == []
      invariant d.disposed ==> frames == MaxPort - MinPort + 1 && d.disposeCount == 1 && reg.instance == null
      invariant d.disposed ==> d.currentPort == MaxPort
      decreases MaxPort - d.currentPort + (if d.disposed then 0 else 1)
    {
      d.Update(true, false, false);
      frames := frames + 1;
    }
  }

  /**
   * Two presences requested between two frames that can send: only the later
   * one is sent, once.
   */
  method LastWriteWins(d: Broadcaster, first: Option<Session>, second: Option<Session>, world: World)
    requires d.Valid() && !d.disposed
    modifies d`nextPresence, d`mustUpdatePresence, d`iconURLCache, d`hashComputations,
      d`currentPort, d`connectURL, d`attempts, d`failures, d`disposed, d`disposeCount,
      d.registry`instance, d`wasConnected, d`connectedNotices, d`sendIssued, d`sent
    ensures d.Valid() && !d.mustUpdatePresence
    ensures d.sent == old(d.sent) + [Requested(second, world, d.startTimestamp, d.iconURLCache)]
    ensures d.nextPresence == Some(Requested(second, world, d.startTimestamp, d.iconURLCache))
  {
    d.UpdatePresence(first, world);
    Request(d, second, world);
    d.Update(true, true, true);
  }

  /**
   * A request made through the cache: the pending presence is the requested
   * one, whether its icon is looked up in the cache as it was before or as it
   * is after the call.
   */
  method Request(d: Broadcaster, session: Option<Session>, world: World)
    requires d.Valid()
    modifies d`nextPresence, d`mustUpdatePresence, d`iconURLCache, d`hashComputations
    ensures d.Valid() && d.mustUpdatePresence
    ensures d.nextPresence == Some(Requested(session, world, d.startTimestamp, old(d.iconURLCache)))
    ensures d.nextPresence == Some(Requested(session, world, d.startTimestamp, d.iconURLCache))
  {
    ghost var cache := d.iconURLCache;
    d.UpdatePresence(session, world);
    if session.Some? {
      Icons.RememberIdempotent(cache, session.value.area.icon, world.icons, world.icons);
    }
  }

  /**
   * A send in flight holds back every later presence; once it completes, the
   * next frame sends the latest presence and only that one.
   */
  method NoSendWhileOutstanding(d: Broadcaster, a: Option<Session>, b: Option<Session>, world: World)
    returns (pendingAfterA: bool, ghost sentAfterA: seq<Activity>, pendingAfterB: bool, ghost sentAfterB: seq<Activity>)
    requires d.Valid() && !d.disposed && d.sendIssued
    modifies d`nextPresence, d`mustUpdatePresence, d`iconURLCache, d`hashComputations,
      d`currentPort, d`connectURL, d`attempts, d`failures, d`disposed, d`disposeCount,
      d.registry`instance, d`wasConnected, d`connectedNotices, d`sendIssued, d`sent
    // the frames while the send is in flight: nothing sent, the request still pending
    ensures pendingAfterA && sentAfterA == old(d.sent)
    ensures pendingAfterB && sentAfterB == old(d.sent)
    // the frame after completion: the latest request, sent once
    ensures d.Valid() && !d.mustUpdatePresence
    ensures d.sent == old(d.sent) + [Requested(b, world, d.startTimestamp, d.iconURLCache)]
  {
    pendingAfterA, sentAfterA := RequestWhileInFlight(d, a, world);
    pendingAfterB, sentAfterB := RequestWhileInFlight(d, b, world);
    d.Update(true, true, true);
  }

  /** A request followed by a frame whose send is still in flight: the request stays pending and nothing is sent. */
  method RequestWhileInFlight(d: Broadcaster, session: Option<Session>, world: World)
    returns (pending: bool, ghost sentNow: seq<Activity>)
    requires d.Valid() && !d.disposed && d.sendIssued
    modifies d`nextPresence, d`mustUpdatePresence, d`iconURLCache, d`hashComputations,
      d`currentPort, d`connectURL, d`attempts, d`failures, d`disposed, d`disposeCount,
      d.registry`instance, d`wasConnected, d`connectedNotices, d`sendIssued, d`sent
    ensures pending && sentNow == old(d.sent) == d.sent
    ensures d.Valid() && !d.disposed && d.sendIssued && d.mustUpdatePresence
    ensures d.nextPresence == Some(Requested(session, world, d.startTimestamp, d.iconURLCache))
  {
    Request(d, session, world);
    d.Update(true, true, false);
    pending, sentNow := d.mustUpdatePresence, d.sent;
  }

  /** Resolving one icon twice gives one URL and hashes its image at most once. */
  method ResolveTwice(d: Broadcaster, icon: string, env: Icons.IconEnv, env': Icons.IconEnv)
    returns (first: string, second: string)
    modifies d`iconURLCache, d`hashComputations
    ensures first == second
    ensures d.hashComputations <= old(d.hashComputations) + 1
    ensures icon in d.iconURLCache && d.iconURLCache[icon] == first
  {
    first := d.GetMapIconURLCached(icon, env);
    second := d.GetMapIconURLCached(icon, env');
  }

  /**
   * Reloading levels keeps the first start time, and the presence shown after
   * the reload carries it; leaving the level clears it. A first load at time 0
   * leaves the slot unset, so the next load sets it.
   */
  method PlaythroughTimestamps(d: Broadcaster, s1: Session, s2: Session, t1: int, t2: int, world: World)
    returns (afterFirst: int, afterSecond: int, shown: Option<Activity>, afterExit: int)
    requires d.Valid() && d.startTimestamp == 0
    modifies d`startTimestamp, d`nextPresence, d`mustUpdatePresence, d`iconURLCache, d`hashComputations
    ensures t1 != 0 ==> afterFirst == t1 && afterSecond == t1
    ensures t1 == 0 ==> afterFirst == 0 && afterSecond == t2
    ensures shown.Some? && shown.value.timestamps == Some(afterSecond)
    ensures afterExit == 0 && d.Valid()
  {
    d.OnLoadLevel(s1, t1, world);
    afterFirst := d.startTimestamp;
    d.OnLoadLevel(s2, t2, world);
    afterSecond, shown := d.startTimestamp, d.nextPresence;
    d.OnLevelExit(world);
    afterExit := d.startTimestamp;
  }

  /** A second creation returns the live broadcaster; after disposal the slot is free for a new one. */
  method SingletonLifecycle() returns (a: Broadcaster, b: Broadcaster, c: Broadcaster)
    ensures a == b && c != a && fresh(c) && c.Initial()
  {
    var reg := new Registry();
    a := reg.CreateInstance();
    b := reg.CreateInstance();
    a.OnGameExit();
    c := reg.CreateInstance();
  }

}
