/**
 * The upcoming-matches converter (src/converter/upcoming.rs): one record
 * per `div.upcomingMatch` container, in document order, the first field
 * that fails aborting the whole conversion. This version of the converter
 * builds teams that also carry logos, so it has its own record shapes.
 */
module ConvertUpcoming {
  import opened Wrappers
  import opened Strings
  import opened Dom
  import opened Convert
  import Data

  /** The team record this converter builds: id, name and two logos. */
  datatype Team = Team(id: U32, name: string, logo: string, altLogo: Option<string>)

  /** `UpcomingMatch`, the start time in Unix seconds. */
  datatype UpcomingMatch = UpcomingMatch(
    id: U32,
    stars: U32,
    team1: Option<Team>,
    team2: Option<Team>,
    event: string,
    format: Data.MatchFormat,
    date: int)

  const ID_MESSAGE: string := "match ID isn't a valid number"
  const TIME_MESSAGE: string := "time is not set in div"
  const EVENT_MESSAGE: string := "no event description found"

  /** `parse_team`: the team whose id is the container's `team_id`
      attribute and whose name is the text of the `matchTeamName` node below
      the `team_id` node. A missing or unparsable id, or a missing name,
      gives `None`: a team is optional, never an error. */
  function ParseTeam(h: RichNode, teamId: string): (r: Option<Team>)
    ensures r.Some? <==>
      && GetAttrStr(h, teamId).Some? && ParseU32(GetAttrStr(h, teamId).value).Some?
      && GetNode(Find(Find(h, teamId), "matchTeamName")).Some?
    ensures r.Some? ==>
      && Some(r.value.id) == ParseU32(GetAttrStr(h, teamId).value)
      && r.value.name == TextContent(GetNode(Find(Find(h, teamId), "matchTeamName")).value)
      && r.value.logo == "" && r.value.altLogo == None
  {
    var id := match GetAttr(h, teamId, ParseU32) case Ok(x) => x case Err(_) => None;
    if id.None? then None
    else
      var name :- InnerText(Find(Find(h, teamId), "matchTeamName"));
      Some(Team(id.value, name, "", None))
  }

  /** `parse_date`: the `data-zonedgrouping-entry-unix` attribute holds
      milliseconds; the result is seconds, the quotient truncated toward
      zero. A missing attribute is a `ConversionError`, one that is not an
      `i64` a `ParseError`. */
  function ParseDate(h: RichNode): (r: Result<int>)
    ensures r == Err(ConversionError(TIME_MESSAGE)) <==> GetAttrStr(h, "data-zonedgrouping-entry-unix").None?
    ensures r == Err(ParseError) <==>
      GetAttrStr(h, "data-zonedgrouping-entry-unix").Some? && ParseI64(GetAttrStr(h, "data-zonedgrouping-entry-unix").value).None?
    ensures r.Ok? ==>
      var ms := ParseI64(GetAttrStr(h, "data-zonedgrouping-entry-unix").value).value;
      && (ms >= 0 ==> 1000 * r.value <= ms < 1000 * r.value + 1000)
      && (ms < 0 ==> 1000 * r.value - 1000 < ms <= 1000 * r.value)
  {
    var time :- GetAttr(h, "data-zonedgrouping-entry-unix", ParseI64);
    var ms :- time.OkOr(ConversionError(TIME_MESSAGE));
    Ok(TruncDiv(ms, 1000))
  }

  /** `parse_id`: the id in the link of the first `match` node. */
  function ParseId(h: RichNode): (r: Result<U32>)
    ensures r.Err? ==> r.error == ParseError || r.error == ConversionError(ID_MESSAGE)
    ensures GetAttrStr(Find(h, "match"), "href").None? ==> r == Err(ParseError)
  {
    HrefId(h, "match", ID_MESSAGE)
  }

  /** A match link "/matches/<id>/<slug>" yields the match id. */
  lemma ParseIdOfLink(h: RichNode, id: U32, slug: string)
    requires GetAttrStr(Find(h, "match"), "href") == Some("/matches/" + NatToString(id) + "/" + slug)
    ensures ParseId(h) == Ok(id)
  {
    assert "/" + "matches" + "/" == "/matches/";
    SegmentIdOfLink("matches", id, slug, ID_MESSAGE);
  }

  /** The node holding the event name, and the node used when the teams are
      not yet known. */
  function EventNameNode(h: RichNode): RichNode {
    Find(Find(Find(h, "match"), "matchEvent"), "matchEventName")
  }

  function EmptyInfoNode(h: RichNode): RichNode {
    Find(Find(Find(h, "match"), "matchInfoEmpty"), "line-clamp-3")
  }

  /** `parse_event`: the text of the event-name node; when there is none,
      the text of the `line-clamp-3` node of the empty-info block; when
      neither exists, a `ConversionError`. */
  function ParseEvent(h: RichNode): (r: Result<string>)
    ensures r.Err? <==> EventNameNode(h).n.None? && EmptyInfoNode(h).n.None?
    ensures r.Err? ==> r.error == ConversionError(EVENT_MESSAGE)
    ensures r.Ok? && EventNameNode(h).n.Some? ==> Some(r.value) == InnerText(EventNameNode(h))
    ensures r.Ok? && EventNameNode(h).n.None? ==> Some(r.value) == InnerText(EmptyInfoNode(h))
  {
    FoundIsPresent(Find(Find(h, "match"), "matchEvent"), "matchEventName");
    FoundIsPresent(Find(Find(h, "match"), "matchInfoEmpty"), "line-clamp-3");
    var m := EventNameNode(h);
    if m.n.Some? then InnerText(m).OkOr(ParseError)
    else
      var m2 := EmptyInfoNode(h);
      if m2.n.Some? then InnerText(m2).OkOr(ParseError)
      else Err(ConversionError(EVENT_MESSAGE))
  }

  /** One container converted: the fields are read in declaration order
      (id, stars, teams, event, format, date) and the first failing one
      decides the error. */
  function ParseMatch(d: Document, c: Handle): (r: Result<UpcomingMatch>)
    requires IsTagAt(d, c)
    ensures r.Ok? <==>
      ParseId(ToRich(c, d)).Ok? && ParseStars(Get(d, c).value).Ok? && ParseEvent(ToRich(c, d)).Ok? && ParseDate(ToRich(c, d)).Ok?
    ensures ParseId(ToRich(c, d)).Err? ==> r == Err(ParseId(ToRich(c, d)).error)
    ensures ParseId(ToRich(c, d)).Ok? && ParseStars(Get(d, c).value).Err? ==> r == Err(ParseStars(Get(d, c).value).error)
    ensures ParseId(ToRich(c, d)).Ok? && ParseStars(Get(d, c).value).Ok? && ParseEvent(ToRich(c, d)).Err? ==>
      r == Err(ParseEvent(ToRich(c, d)).error)
    ensures ParseId(ToRich(c, d)).Ok? && ParseStars(Get(d, c).value).Ok? && ParseEvent(ToRich(c, d)).Ok? && ParseDate(ToRich(c, d)).Err? ==>
      r == Err(ParseDate(ToRich(c, d)).error)
    ensures r.Ok? ==>
      var h := ToRich(c, d);
      && r.value.id == ParseId(h).value && r.value.stars == ParseStars(Get(d, c).value).value
      && r.value.team1 == ParseTeam(h, "team1") && r.value.team2 == ParseTeam(h, "team2")
      && r.value.event == ParseEvent(h).value && r.value.format == Data.Bo1 && r.value.date == ParseDate(h).value
  {
    var h := ToRich(c, d);
    var id :- ParseId(h);
    var stars :- ParseStars(Get(d, c).value);
    var event :- ParseEvent(h);
    var date :- ParseDate(h);
    Ok(UpcomingMatch(id, stars, ParseTeam(h, "team1"), ParseTeam(h, "team2"), event, Data.Bo1, date))
  }

  function Parser(d: Document): Handle --> Result<UpcomingMatch> {
    c requires IsTagAt(d, c) => ParseMatch(d, c)
  }

  /** The result of `convert`: every container converted, in order, or
      the first error. */
  function Converted(d: Document): Result<seq<UpcomingMatch>> {
    MapAll(Parser(d), Containers(d, "div", "upcomingMatch"))
  }

  /** `convert`: the loop over the containers. */
  method ConvertPage(d: Document) returns (r: Result<seq<UpcomingMatch>>)
    ensures r == Converted(d)
  {
    r := ConvertAll(Parser(d), Containers(d, "div", "upcomingMatch"));
  }

  /** On success there is one record per container, in document order,
      each the conversion of its container and each of format `Bo1`; on
      failure the error is that of the first container that fails. */
  lemma ConvertedRecords(d: Document)
    ensures Converted(d).Ok? <==> forall i | 0 <= i < |Containers(d, "div", "upcomingMatch")| :: ParseMatch(d, Containers(d, "div", "upcomingMatch")[i]).Ok?
    ensures Converted(d).Ok? ==>
      var ms := Converted(d).value;
      && |ms| == |Containers(d, "div", "upcomingMatch")|
      && forall i | 0 <= i < |ms| :: ParseMatch(d, Containers(d, "div", "upcomingMatch")[i]) == Ok(ms[i]) && ms[i].format == Data.Bo1
    ensures Converted(d).Err? ==>
      exists k | 0 <= k < |Containers(d, "div", "upcomingMatch")| ::
        && ParseMatch(d, Containers(d, "div", "upcomingMatch")[k]) == Err(Converted(d).error)
        && forall i | 0 <= i < k :: ParseMatch(d, Containers(d, "div", "upcomingMatch")[i]).Ok?
  {
    var cs := Containers(d, "div", "upcomingMatch");
    MapAllOk(Parser(d), cs);
    if Converted(d).Err? {
      MapAllErr(Parser(d), cs);
    }
  }
}
