/**
 * The results-page converter (src/converter/results.rs). Its field parsers
 * are complete, but `convert` only reads each container's id and never
 * stores a record, so every conversion succeeds with no results.
 */
module ConvertResults {
  import opened Wrappers
  import opened Strings
  import opened Dom
  import opened Convert
  import Data

  /** `Score`: a won-lost count. */
  datatype Score = Score(scoreWon: U32, scoreLost: U32)

  /** `MatchResult`: a concluded match as the results page lists it. */
  datatype MatchResult = MatchResult(
    id: U32,
    winner: Data.WhichTeam,
    team1: string,
    team2: string,
    score: Score,
    event: string,
    format: Data.MatchFormat)

  const ID_MESSAGE: string := "match ID isn't a valid number"
  const TEAM_MESSAGE: string := "No team name found"
  const WHICH_MESSAGE: string := "team format incorrect"

  /** A `div` tag whose class list holds `result-con`. */
  predicate IsResultContainer(d: Document, h: Handle) {
    && Get(d, h).Some? && Get(d, h).value.Tag? && Get(d, h).value.name == "div"
    && IsClassMember(Get(d, h).value.attrs, "result-con")
  }

  /** `get_roots`: the `div.result-con` containers, which are exactly the
      tags of the document with that name and class, in document order. */
  function GetRoots(d: Document): (roots: seq<Handle>)
    ensures forall h :: h in roots <==> IsResultContainer(d, h)
    ensures InDocumentOrder(roots)
  {
    forall h ensures h in QuerySelector(d, "div", "result-con") <==> IsResultContainer(d, h) {
      QuerySelectorExact(d, "div", "result-con", h);
    }
    QuerySelectorExact(d, "div", "result-con", []);
    Containers(d, "div", "result-con")
  }

  /** The node holding a team's name. */
  function TeamNameNode(h: RichNode, teamId: string): RichNode {
    Find(Find(h, teamId), "team")
  }

  /** `parse_team`: the text of the `team` node below the `team_id` node;
      a `ConversionError` when there is none. */
  function ParseTeam(h: RichNode, teamId: string): (r: Result<string>)
    ensures r.Err? <==> TeamNameNode(h, teamId).n.None?
    ensures r.Err? ==> r.error == ConversionError(TEAM_MESSAGE)
    ensures r.Ok? ==> Some(r.value) == InnerText(TeamNameNode(h, teamId))
  {
    FoundIsPresent(Find(h, teamId), "team");
    InnerText(TeamNameNode(h, teamId)).OkOr(ConversionError(TEAM_MESSAGE))
  }

  /** `parse_which`: the first team won exactly when its name node carries
      the class `team-won`; otherwise the second did. Without that node the
      result is a `ConversionError`, so `WhichTeam::None` never comes out. */
  function ParseWhich(h: RichNode): (r: Result<Data.WhichTeam>)
    ensures r.Err? <==> TeamNameNode(h, "team1").n.None?
    ensures r.Err? ==> r.error == ConversionError(WHICH_MESSAGE)
    ensures r.Ok? ==> r.value != Data.WhichTeam.None
    ensures r == Ok(Data.First) <==>
      TeamNameNode(h, "team1").n.Some? && HasClass(TeamNameNode(h, "team1"), "team-won") == Some(true)
  {
    var node := TeamNameNode(h, "team1");
    FoundTagIsTag(Find(h, "team1"), "team");
    var won :- HasClass(node, "team-won").OkOr(ConversionError(WHICH_MESSAGE));
    if won then Ok(Data.First) else Ok(Data.Second)
  }

  /** A node `find` returns is a tag, so `has_class` on it is defined. */
  lemma FoundTagIsTag(rn: RichNode, cls: string)
    ensures Find(rn, cls).n.Some? ==> GetNode(Find(rn, cls)).Some? && GetNode(Find(rn, cls)).value.Tag?
  {
    if rn.n.Some? {
      FindFirstMatch(rn, cls);
    }
  }

  /** `parse_id`: the id in the link of the first `a-reset` node. */
  function ParseId(h: RichNode): (r: Result<U32>)
    ensures r.Err? ==> r.error == ParseError || r.error == ConversionError(ID_MESSAGE)
    ensures GetAttrStr(Find(h, "a-reset"), "href").None? ==> r == Err(ParseError)
  {
    HrefId(h, "a-reset", ID_MESSAGE)
  }

  /** A match link "/matches/<id>/<slug>" on the `a-reset` node yields the
      match id. */
  lemma ParseIdOfLink(h: RichNode, id: U32, slug: string)
    requires GetAttrStr(Find(h, "a-reset"), "href") == Some("/matches/" + NatToString(id) + "/" + slug)
    ensures ParseId(h) == Ok(id)
  {
    assert "/" + "matches" + "/" == "/matches/";
    SegmentIdOfLink("matches", id, slug, ID_MESSAGE);
  }

  /** `convert`: reads the id of every container (and only prints it), then
      returns the result vector it never pushed to: success with no
      records, whatever the page holds. */
  method ConvertPage(d: Document) returns (r: Result<seq<MatchResult>>)
    ensures r == Ok([])
  {
    var result: seq<MatchResult> := [];
    var roots := GetRoots(d);
    for i := 0 to |roots|
      invariant result == []
    {
      var id := ParseId(ToRich(roots[i], d));
    }
    return Ok(result);
  }
}
