/**
 * The presence payload: the activity value sent to the Discord client and the
 * functions that say what it holds in the menus and inside a level.
 */
module Presence {
  import opened Optional
  import opened Text
  import Icons

  /** The user's Discord toggles (CoreModule.Settings), read-only to the broadcaster. */
  datatype Settings = Settings(
    showIcon: bool, showMap: bool, showSide: bool, showRoom: bool, showBerries: bool, showDeaths: bool)

  /** The side being played; its index is the enum value the side letter is computed from. */
  datatype AreaMode = Normal | BSide | CSide {
    function Index(): (i: nat)
      ensures i < 3
    {
      match this
      case Normal => 0
      case BSide => 1
      case CSide => 2
    }
  }

  /**
   * What the payload needs of a map's AreaData. `displayName` and
   * `displayLevelSet` are the localised names after emoji filtering and
   * trimming; `hasBSide` says that the map defines a second mode.
   */
  datatype Area = Area(
    sid: string, levelSet: string, displayName: string, displayLevelSet: string,
    icon: string, hasBSide: bool)

  /** What the payload needs of the running Session. `level` is the room name. */
  datatype Session = Session(
    area: Area, mode: AreaMode, chapterIndex: int, level: string, strawberries: nat, deaths: int)

  datatype Assets = Assets(largeImage: string, largeText: string, smallImage: string, smallText: string)

  /** The activity object; `None` is a field left null, which the serialised message carries as null. */
  datatype Activity = Activity(
    state: Option<string>, details: Option<string>, timestamps: Option<int>, assets: Option<Assets>)

  /**
   * "{n} {noun}": the number's decimal text is everything before the first
   * space, and the noun after it is the singular exactly when n is 1.
   */
  function Pluralize(n: int, singular: string, plural: string): (r: string)
    ensures var k := FirstSpace(r);
      k == |IntToString(n)| < |r| && r[..k] == IntToString(n)
      && r[k + 1..] == (if n == 1 then singular else plural)
  {
    var noun := if n == 1 then singular else plural;
    FirstSpaceAfter(IntToString(n), noun);
    IntToString(n) + " " + noun
  }

  /**
   * The number and the noun can be read back from a pluralized count: the text
   * up to the first space is the number, the rest is the singular noun when the
   * number is 1 and the plural noun for every other number, 0 included.
   */
  lemma PluralizeReadsBack(n: int, singular: string, plural: string)
    ensures var r := Pluralize(n, singular, plural);
      var k := FirstSpace(r);
      k < |r| && ParseInt(r[..k]) == n && r[k + 1..] == (if n == 1 then singular else plural)
  {
    IntToStringRoundTrip(n);
  }

  lemma PluralizeExamples()
    ensures Pluralize(1, "death", "deaths") == "1 death"
    ensures Pluralize(0, "death", "deaths") == "0 deaths"
    ensures Pluralize(5, "berry", "berries") == "5 berries"
  {
  }

  function ModeLetter(mode: AreaMode): (c: char)
    ensures 'A' <= c <= 'C'
  {
    ('A' as int + mode.Index()) as char
  }

  /** The static branding icons. */
  const EverestIcon: string := Icons.StaticIconURL("everest")
  const CelesteIcon: string := Icons.StaticIconURL("celeste")

  /** The activity shown outside a level. */
  function MenuPresence(cfg: Settings): (a: Activity)
    ensures a.details == Some("In Menus") && a.state == None && a.timestamps == None
    ensures a.assets.Some? <==> cfg.showIcon
  {
    Activity(None, Some("In Menus"), None,
      if cfg.showIcon then Some(Assets(EverestIcon, "Everest", CelesteIcon, "Celeste")) else None)
  }

  /** The map's name, or the placeholder when the map is hidden. */
  function MapName(s: Session, cfg: Settings): string {
    if cfg.showMap then s.area.displayName else "a map"
  }

  function SideSuffix(s: Session, cfg: Settings): string {
    if cfg.showMap && cfg.showSide && s.area.hasBSide then " | " + [ModeLetter(s.mode)] + "-Side" else ""
  }

  function RoomSuffix(s: Session, cfg: Settings): string {
    if cfg.showMap && cfg.showRoom then " | Room " + s.level else ""
  }

  /**
   * The caption of the large icon: "Everest" when the map is hidden; else the
   * map's name, preceded by its level set (and chapter) unless it is alone in
   * that set.
   */
  function FullName(s: Session, cfg: Settings, onlyInSet: bool): (r: string)
    ensures !cfg.showMap ==> r == "Everest"
    ensures cfg.showMap ==> EndsWith(r, s.area.displayName)
    ensures cfg.showMap && onlyInSet ==> r == s.area.displayName
    ensures cfg.showMap && !onlyInSet ==> s.area.displayLevelSet + " | " <= r
  {
    if !cfg.showMap then "Everest"
    else if onlyInSet then MapName(s, cfg)
    else (s.area.displayLevelSet + " | "
      + (if s.chapterIndex >= 0 then "Chapter " + IntToString(s.chapterIndex) + " - " else "")
      + MapName(s, cfg))
  }

  /** The counters the settings ask for, in order: berries, then deaths. */
  function Counters(s: Session, cfg: Settings): seq<string> {
    (if cfg.showBerries then [Pluralize(s.strawberries, "berry", "berries")] else [])
    + (if cfg.showDeaths then [Pluralize(s.deaths, "death", "deaths")] else [])
  }

  /** The status line: the enabled counters joined by " | "; it is empty only when no counter is enabled. */
  function StateLine(s: Session, cfg: Settings): (r: string)
    ensures r == "" <==> !cfg.showBerries && !cfg.showDeaths
  {
    var parts := Counters(s, cfg);
    assert |parts| == 2 ==> Join(parts, " | ") == parts[0] + " | " + Join(parts[1..], " | ");
    Join(parts, " | ")
  }

  /** The details line: "Playing " and the map's name, or "a map" when the map is hidden. */
  function Details(s: Session, cfg: Settings): (r: string)
    ensures cfg.showMap ==> "Playing " + s.area.displayName <= r
    ensures !cfg.showMap ==> r == "Playing a map"
  {
    "Playing " + MapName(s, cfg) + SideSuffix(s, cfg) + RoomSuffix(s, cfg)
  }

  /**
   * The activity shown inside a level. `icon` is the large icon's URL and
   * `onlyInSet` says whether the map is alone in its level set. It always
   * carries the timestamp, the state line and the details; assets, with the
   * icon and the Celeste badge, only with the icon toggle.
   */
  function LevelPresence(s: Session, cfg: Settings, start: int, icon: string, onlyInSet: bool): (a: Activity)
    ensures a.timestamps == Some(start)
    ensures a.state == Some(StateLine(s, cfg)) && a.details == Some(Details(s, cfg))
    ensures a.assets.Some? <==> cfg.showIcon
    ensures cfg.showIcon ==> a.assets.value == Assets(icon, FullName(s, cfg, onlyInSet), CelesteIcon, "Celeste")
  {
    Activity(Some(StateLine(s, cfg)), Some(Details(s, cfg)), Some(start),
      if cfg.showIcon then Some(Assets(icon, FullName(s, cfg, onlyInSet), CelesteIcon, "Celeste")) else None)
  }

  /** The large icon inside a level: the map's resolved icon when both map and icon are shown, the Everest icon otherwise. */
  function LevelIcon(s: Session, cfg: Settings, cache: map<string, string>, env: Icons.IconEnv): string {
    if cfg.showMap && cfg.showIcon then Icons.CachedIconURL(cache, s.area.icon, env) else EverestIcon
  }

  /** No other map of the catalogue shares this map's level set. */
  predicate OnlyMapInLevelSet(areas: seq<Area>, area: Area) {
    forall i :: 0 <= i < |areas| ==> !(areas[i].levelSet == area.levelSet && areas[i].sid != area.sid)
  }

  /**
   * The side fragment appears exactly when map and side are both shown and the
   * map has a B-side; the room fragment exactly when map and room are both
   * shown, and it then ends the details line.
   */
  lemma DetailsFragments(s: Session, cfg: Settings)
    ensures "Playing " <= Details(s, cfg)
    ensures SideSuffix(s, cfg) != "" <==> cfg.showMap && cfg.showSide && s.area.hasBSide
    ensures SideSuffix(s, cfg) != "" ==> SideSuffix(s, cfg) == " | " + [ModeLetter(s.mode)] + "-Side"
    ensures RoomSuffix(s, cfg) != "" <==> cfg.showMap && cfg.showRoom
    ensures cfg.showMap && cfg.showRoom ==>
      var d := Details(s, cfg);
      var room := " | Room " + s.level;
      |room| <= |d| && d[|d| - |room|..] == room
    ensures !cfg.showMap ==> Details(s, cfg) == "Playing a map"
  {
    var d := Details(s, cfg);
    if cfg.showMap && cfg.showRoom {
      assert d == ("Playing " + MapName(s, cfg) + SideSuffix(s, cfg)) + (" | Room " + s.level);
    }
  }

  /**
   * The status line is empty exactly when no counter is shown, is one counter
   * alone when only one is shown, and joins berries and deaths with " | " only
   * when both are shown.
   */
  lemma StateLineFragments(s: Session, cfg: Settings)
    ensures StateLine(s, cfg) == "" <==> !cfg.showBerries && !cfg.showDeaths
    ensures cfg.showBerries && cfg.showDeaths ==>
      StateLine(s, cfg) == Pluralize(s.strawberries, "berry", "berries") + " | " + Pluralize(s.deaths, "death", "deaths")
    ensures cfg.showBerries && !cfg.showDeaths ==> StateLine(s, cfg) == Pluralize(s.strawberries, "berry", "berries")
    ensures !cfg.showBerries && cfg.showDeaths ==> StateLine(s, cfg) == Pluralize(s.deaths, "death", "deaths")
  {
    var parts := Counters(s, cfg);
    if cfg.showBerries && cfg.showDeaths {
      var b, d := Pluralize(s.strawberries, "berry", "berries"), Pluralize(s.deaths, "death", "deaths");
      assert parts == [b, d] && parts[1..] == [d];
      assert Join(parts, " | ") == b + " | " + Join([d], " | ");
    }
  }

  /**
   * With every toggle on, "Forsaken City" on its A-side in room "1" with three
   * berries and two deaths: the details, status line and timestamp.
   */
  lemma ForsakenCityExample(area: Area, start: int, icon: string, onlyInSet: bool)
    requires area.displayName == "Forsaken City" && area.hasBSide
    ensures var cfg := Settings(true, true, true, true, true, true);
      var s := Session(area, Normal, 1, "1", 3, 2);
      var a := LevelPresence(s, cfg, start, icon, onlyInSet);
      && a.details == Some("Playing Forsaken City | A-Side | Room 1")
      && a.state == Some("3 berries | 2 deaths")
      && a.timestamps == Some(start)
  {
    var cfg := Settings(true, true, true, true, true, true);
    var s := Session(area, Normal, 1, "1", 3, 2);
    ForsakenCityDetails(s, cfg);
    ForsakenCityState(s, cfg);
  }

  lemma ForsakenCityDetails(s: Session, cfg: Settings)
    requires cfg == Settings(true, true, true, true, true, true)
    requires s.area.displayName == "Forsaken City" && s.area.hasBSide && s.mode == Normal && s.level == "1"
    ensures Details(s, cfg) == "Playing Forsaken City | A-Side | Room 1"
  {
    var side, room := SideSuffix(s, cfg), RoomSuffix(s, cfg);
    assert side == " | A-Side" by {
      assert ModeLetter(Normal) == 'A';
    }
    assert room == " | Room 1";
    assert "Playing " + "Forsaken City" == "Playing Forsaken City";
    assert "Playing Forsaken City" + " | A-Side" == "Playing Forsaken City | A-Side";
    assert "Playing Forsaken City | A-Side" + " | Room 1" == "Playing Forsaken City | A-Side | Room 1";
  }

  lemma ForsakenCityState(s: Session, cfg: Settings)
    requires cfg == Settings(true, true, true, true, true, true)
    requires s.strawberries == 3 && s.deaths == 2
    ensures StateLine(s, cfg) == "3 berries | 2 deaths"
  {
    StateLineFragments(s, cfg);
    assert IntToString(3) == "3" && IntToString(2) == "2";
    assert Pluralize(3, "berry", "berries") == "3" + " " + "berries" == "3 berries";
    assert Pluralize(2, "death", "deaths") == "2" + " " + "deaths" == "2 deaths";
    assert "3 berries" + " | " + "2 deaths" == "3 berries | 2 deaths";
  }

}
