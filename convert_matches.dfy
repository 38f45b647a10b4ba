/**
 * The older upcoming-matches converter (src/converter/matches.rs). It
 * builds the `UpcomingMatch` of src/data.rs, whose teams are plain
 * `Team` records; stars, format and date are fixed placeholders, and the
 * event-name fallback reads the whole empty-info block.
 */
module ConvertMatches {
  import opened Wrappers
  import opened Strings
  import opened Dom
  import opened Convert
  import Data

  /** `UpcomingMatch` of src/data.rs, the start time in Unix seconds. */
  datatype UpcomingMatch = UpcomingMatch(
    id: U32,
    team1: Option<Data.Team>,
    team2: Option<Data.Team>,
    event: string,
    format: Data.MatchFormat,
    date: int,
    stars: U32)

  const ID_MESSAGE: string := "match ID couldn't be parsed"
  const EVENT_MESSAGE: string := "no event description found"

  /** The placeholder start time every record gets: 61 seconds after the
      epoch. */
  const PLACEHOLDER_DATE: int := 61

  /** `parse_team`: the team whose id is the container's `team_id`
      attribute and whose name is the text of the `matchTeamName` node below
      the `team_id` node; `None` when either is missing or the id does not
      parse. */
  function ParseTeam(h: RichNode, teamId: string): (r: Option<Data.Team>)
    ensures r.Some? <==>
      && GetAttrStr(h, teamId).Some? && ParseU32(GetAttrStr(h, teamId).value).Some?
      && GetNode(Find(Find(h, teamId), "matchTeamName")).Some?
    ensures r.Some? ==>
      && Some(r.value.id) == ParseU32(GetAttrStr(h, teamId).value)
      && r.value.name == TextContent(GetNode(Find(Find(h, teamId), "matchTeamName")).value)
  {
    var id := match GetAttr(h, teamId, ParseU32) case Ok(x) => x case Err(_) => None;
    if id.None? then None
    else
      var name :- InnerText(Find(Find(h, teamId), "matchTeamName"));
      Some(Data.Team(id.value, name))
  }

  /** `parse_id`: the id in the link of the first `match` node, with this
      converter's own message for an id that does not parse. */
  function ParseId(h: RichNode): (r: Result<U32>)
    ensures r.Err? ==> r.error == ParseError || r.error == ConversionError(ID_MESSAGE)
    ensures GetAttrStr(Find(h, "match"), "href").None? ==> r == Err(ParseError)
  {
    HrefId(h, "match", ID_MESSAGE)
  }

  /** A link with a non-numeric third segment is rejected with this
      converter's message. */
  lemma ParseIdRejectsNonNumeric(h: RichNode, slug: string)
    requires '/' !in slug && ParseU32(slug).None?
    requires GetAttrStr(Find(h, "match"), "href") == Some("/matches/" + slug)
    ensures ParseId(h) == Err(ConversionError(ID_MESSAGE))
  {
    SplitShortMatchLink(slug);
  }

  /** "/matches/<slug>" splits into "", "matches" and the slug. */
  lemma SplitShortMatchLink(slug: string)
    requires '/' !in slug
    ensures Split("/matches/" + slug, '/') == ["", "matches", slug]
  {
    assert "/matches/" + slug == ['/'] + "matches" + ['/'] + slug;
    SplitRootedPair("matches", slug);
  }

  /** A rooted two-segment path "/a/b" splits into "", a and b. */
  lemma SplitRootedPair(a: string, b: string)
    requires '/' !in a && '/' !in b
    ensures Split(['/'] + a + ['/'] + b, '/') == ["", a, b]
  {
    assert ['/'] + a + ['/'] + b == [] + ['/'] + (a + ['/'] + b);
    SplitAtSeparator([], a + ['/'] + b, '/');
    SplitAtSeparator(a, b, '/');
    SplitNoSeparator(a, '/');
    SplitNoSeparator(b, '/');
  }

  /** The empty-info block used when the event-name node is missing. */
  function EmptyInfoNode(h: RichNode): RichNode {
    Find(Find(h, "match"), "matchInfoEmpty")
  }

  function EventNameNode(h: RichNode): RichNode {
    Find(Find(Find(h, "match"), "matchEvent"), "matchEventName")
  }

  /** `parse_event`: the text of the event-name node; when there is none,
      the whole text of the empty-info block; when neither exists, a
      `ConversionError`. */
  function ParseEvent(h: RichNode): (r: Result<string>)
    ensures r.Err? <==> EventNameNode(h).n.None? && EmptyInfoNode(h).n.None?
    ensures r.Err? ==> r.error == ConversionError(EVENT_MESSAGE)
    ensures r.Ok? && EventNameNode(h).n.Some? ==> Some(r.value) == InnerText(EventNameNode(h))
    ensures r.Ok? && EventNameNode(h).n.None? ==> Some(r.value) == InnerText(EmptyInfoNode(h))
  {
    FoundIsPresent(Find(Find(h, "match"), "matchEvent"), "matchEventName");
    FoundIsPresent(Find(h, "match"), "matchInfoEmpty");
    var m := EventNameNode(h);
    if m.n.Some? then InnerText(m).OkOr(ParseError)
    else
      var m2 := EmptyInfoNode(h);
      if m2.n.Some? then InnerText(m2).OkOr(ParseError)
      else Err(ConversionError(EVENT_MESSAGE))
  }

  /** One container converted: only the id and the event can fail, the id
      first; stars, format and date are placeholders. */
  function ParseMatch(d: Document, c: Handle): (r: Result<UpcomingMatch>)
    requires IsTagAt(d, c)
    ensures r.Ok? <==> ParseId(ToRich(c, d)).Ok? && ParseEvent(ToRich(c, d)).Ok?
    ensures ParseId(ToRich(c, d)).Err? ==> r == Err(ParseId(ToRich(c, d)).error)
    ensures ParseId(ToRich(c, d)).Ok? && ParseEvent(ToRich(c, d)).Err? ==> r == Err(ParseEvent(ToRich(c, d)).error)
    ensures r.Ok? ==>
      var h := ToRich(c, d);
      && r.value.id == ParseId(h).value && r.value.event == ParseEvent(h).value
      && r.value.team1 == ParseTeam(h, "team1") && r.value.team2 == ParseTeam(h, "team2")
      && r.value.stars == 0 && r.value.format == Data.Bo1 && r.value.date == PLACEHOLDER_DATE
  {
    var h := ToRich(c, d);
    var id :- ParseId(h);
    var event :- ParseEvent(h);
    Ok(UpcomingMatch(id, ParseTeam(h, "team1"), ParseTeam(h, "team2"), event, Data.Bo1, PLACEHOLDER_DATE, 0))
  }

  function Parser(d: Document): Handle --> Result<UpcomingMatch> {
    c requires IsTagAt(d, c) => ParseMatch(d, c)
  }

  /** The result of `convert`: every container converted, in order, or
      the first error. */
  function Converted(d: Document): Result<seq<UpcomingMatch>> {
    MapAll(Parser(d), Containers(d, "div", "upcomingMatch"))
  }

  /** `convert`: the loop over the `div.upcomingMatch` containers. */
  method ConvertPage(d: Document) returns (r: Result<seq<UpcomingMatch>>)
    ensures r == Converted(d)
  {
    r := ConvertAll(Parser(d), Containers(d, "div", "upcomingMatch"));
  }

  /** On success there is one record per container, in document order,
      every one with no stars, format `Bo1` and the placeholder date; on
      failure the error is that of the first container that fails. */
  lemma ConvertedRecords(d: Document)
    ensures Converted(d).Ok? <==>
      forall i | 0 <= i < |Containers(d, "div", "upcomingMatch")| :: ParseMatch(d, Containers(d, "div", "upcomingMatch")[i]).Ok?
    ensures Converted(d).Ok? ==>
      var ms := Converted(d).value;
      && |ms| == |Containers(d, "div", "upcomingMatch")|
      && forall i | 0 <= i < |ms| ::
        && ParseMatch(d, Containers(d, "div", "upcomingMatch")[i]) == Ok(ms[i])
        && ms[i].stars == 0 && ms[i].format == Data.Bo1 && ms[i].date == PLACEHOLDER_DATE
    ensures Converted(d).Err? ==>
      exists k | 0 <= k < |Containers(d, "div", "upcomingMatch")| ::
        && ParseMatch(d, Containers(d, "div", "upcomingMatch")[k]) == Err(Converted(d).error)
        && forall i | 0 <= i < k :: ParseMatch(d, Containers(d, "div", "upcomingMatch")[i]).Ok?
  {
    var cs := Containers(d, "div", "upcomingMatch");
    MapAllOk(Parser(d), cs);
    if Converted(d).Err? {
      MapAllErr(Parser(d), cs);
    }
  }
}
