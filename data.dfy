/**
 * The domain records of src/data.rs and the little behaviour they carry:
 * the `Map` name table in both directions, the derived defaults and the
 * field-copying constructors. Timestamps (chrono's `DateTime<Utc>`) are
 * integer Unix seconds; the floating-point statistics are not modelled.
 */
module Data {
  import opened Strings

  /** `MatchFormat`. */
  datatype MatchFormat = Bo1 | Bo3 | Bo5 | Bo7

  /** `WhichTeam`; `None` is the derived default. */
  datatype WhichTeam = None | First | Second

  /** `Player`. */
  datatype Player = Player(id: U32, nickname: string)

  /** `Team` as src/data.rs declares it: an id and a name. */
  datatype Team = Team(id: U32, name: string)

  /** `MapScore`: the rounds each team won on one map. */
  datatype MapScore = MapScore(played: Map, team1: U32, team2: U32)

  /** `Map`: the CS:GO maps HLTV lists; `Unknown` is the derived default. */
  datatype Map =
    | Unknown | Cache | Season | Dust2 | Mirage | Inferno | Nuke
    | Train | Cobblestone | Overpass | Tuscan | Vertigo | Ancient

  /** The variant's own name, as the derived `Debug` prints it. */
  function MapName(m: Map): string {
    match m
    case Unknown => "Unknown"
    case Cache => "Cache"
    case Season => "Season"
    case Dust2 => "Dust2"
    case Mirage => "Mirage"
    case Inferno => "Inferno"
    case Nuke => "Nuke"
    case Train => "Train"
    case Cobblestone => "Cobblestone"
    case Overpass => "Overpass"
    case Tuscan => "Tuscan"
    case Vertigo => "Vertigo"
    case Ancient => "Ancient"
  }

  predicate IsAsciiUpper(c: char) {
    'A' <= c <= 'Z'
  }

  function LowerChar(c: char): char {
    if IsAsciiUpper(c) then (c as int + 32) as char else c
  }

  /** ASCII lower-casing. */
  function ToLower(s: string): string {
    seq(|s|, i requires 0 <= i < |s| => LowerChar(s[i]))
  }

  /** Every variant's name begins with a capital letter. */
  lemma MapNameCapitalised(m: Map)
    ensures |MapName(m)| > 0 && IsAsciiUpper(MapName(m)[0])
  {
  }

  /** `impl From<String> for Map`: exactly the twelve case-sensitive
      variant names are recognised; every other string is `Unknown`. */
  function MapFromString(s: string): (m: Map)
    ensures m != Unknown ==> s == MapName(m)
  {
    match s
    case "Cache" => Cache
    case "Season" => Season
    case "Dust2" => Dust2
    case "Mirage" => Mirage
    case "Inferno" => Inferno
    case "Nuke" => Nuke
    case "Train" => Train
    case "Cobblestone" => Cobblestone
    case "Overpass" => Overpass
    case "Tuscan" => Tuscan
    case "Vertigo" => Vertigo
    case "Ancient" => Ancient
    case _ => Unknown
  }

  /** Every known map is recovered from its name. */
  lemma MapFromName(m: Map)
    requires m != Unknown
    ensures MapFromString(MapName(m)) == m
  {
  }

  /** `impl Display for Map`: "n/a" for `Unknown`, otherwise "de_" and the
      variant's name in lower case. */
  function MapDisplay(m: Map): (s: string)
    ensures m == Unknown ==> s == "n/a"
  {
    match m
    case Unknown => "n/a"
    case Cache => "de_cache"
    case Season => "de_season"
    case Dust2 => "de_dust2"
    case Mirage => "de_mirage"
    case Inferno => "de_inferno"
    case Nuke => "de_nuke"
    case Train => "de_train"
    case Cobblestone => "de_cobblestone"
    case Overpass => "de_overpass"
    case Tuscan => "de_tuscan"
    case Vertigo => "de_vertigo"
    case Ancient => "de_ancient"
  }

  /** A known map prints as "de_" and its variant name in lower case. */
  lemma MapDisplayLowercase(m: Map)
    requires m != Unknown
    ensures MapDisplay(m) == "de_" + ToLower(MapName(m))
  {
    match m
    case Cache =>
    case Season =>
    case Dust2 =>
    case Mirage =>
    case Inferno =>
    case Nuke =>
    case Train =>
    case Cobblestone =>
    case Overpass =>
    case Tuscan =>
    case Vertigo =>
    case Ancient =>
  }

  /** The printed forms hold no query-string delimiter. */
  lemma MapDisplayHasNoDelimiter(m: Map)
    ensures '&' !in MapDisplay(m) && '=' !in MapDisplay(m)
  {
  }

  /** `From<String>` is not an inverse of `Display`: a printed map
      ("de_dust2", "n/a") reads back as `Unknown`. */
  lemma MapFromDisplayIsUnknown(m: Map)
    ensures MapFromString(MapDisplay(m)) == Unknown
  {
    var s := MapDisplay(m);
    assert s[0] == 'd' || s[0] == 'n';
    if MapFromString(s) != Unknown {
      MapNameCapitalised(MapFromString(s));
    }
  }

  /** A number that tells the variants apart (their declaration order). */
  function MapOrdinal(m: Map): nat {
    match m
    case Unknown => 0
    case Cache => 1
    case Season => 2
    case Dust2 => 3
    case Mirage => 4
    case Inferno => 5
    case Nuke => 6
    case Train => 7
    case Cobblestone => 8
    case Overpass => 9
    case Tuscan => 10
    case Vertigo => 11
    case Ancient => 12
  }

  /** Reads a printed map back; the left inverse that shows `Display` is
      injective. */
  function MapOfDisplay(s: string): (k: nat) {
    match s
    case "de_cache" => 1
    case "de_season" => 2
    case "de_dust2" => 3
    case "de_mirage" => 4
    case "de_inferno" => 5
    case "de_nuke" => 6
    case "de_train" => 7
    case "de_cobblestone" => 8
    case "de_overpass" => 9
    case "de_tuscan" => 10
    case "de_vertigo" => 11
    case "de_ancient" => 12
    case _ => 0
  }

  /** Distinct maps print differently. */
  lemma MapDisplayInjective(a: Map, b: Map)
    requires MapDisplay(a) == MapDisplay(b)
    ensures a == b
  {
    assert MapOfDisplay(MapDisplay(a)) == MapOrdinal(a);
    assert MapOfDisplay(MapDisplay(b)) == MapOrdinal(b);
  }

  /** The derived `Map::default()`: the map an unrecognised name gives,
      printed as "n/a". */
  function MapDefault(): (m: Map)
    ensures m == MapFromString("")
    ensures MapDisplay(m) == "n/a"
  {
    Unknown
  }

  /** The derived `WhichTeam::default()`: neither team. */
  function WhichTeamDefault(): (w: WhichTeam)
    ensures w != First && w != Second
  {
    None
  }

  /** `Team::new`: keeps both arguments. */
  function NewTeam(id: U32, name: string): (t: Team)
    ensures t.id == id && t.name == name
  {
    Team(id, name)
  }

  /** `MapScore::new`: keeps the map and both round counts. */
  function NewMapScore(played: Map, team1: U32, team2: U32): (s: MapScore)
    ensures s.played == played && s.team1 == team1 && s.team2 == team2
  {
    MapScore(played, team1, team2)
  }
}
