/**
 * The player converter (src/converter/player.rs). Two passes append to one
 * vector: first the players of a team page, then those of a match page.
 * Each pass pushes into the caller's vector as it goes, so a pass that
 * fails leaves behind the players it had already appended.
 */
module ConvertPlayer {
  import opened Wrappers
  import opened Strings
  import opened Dom
  import opened Convert
  import opened Data

  const NO_ID_MESSAGE: string := "No ID found for player"
  const NO_NAME_MESSAGE: string := "No player name found"
  const NO_TITLE_MESSAGE: string := "missing title attribute in player div"
  const NO_HREF_MESSAGE: string := "missing href link in player div"
  const BAD_ID_MESSAGE: string := "incorrect ID / format of href was changed"

  // ---------------------------------------------------------------------
  // Match page: one player per `td.player` cell
  // ---------------------------------------------------------------------

  /** One `td.player` cell: the id is the `data-player-id` attribute of its
      `flagAlign` node (missing: `ConversionError`, not a `u32`:
      `ParseError`), the nickname the text of its `text-ellipsis` node
      (missing: `ConversionError`). */
  function MatchCellPlayer(d: Document, c: Handle): (r: Result<Player>)
    ensures
      var id := GetAttrStr(Find(ToRich(c, d), "flagAlign"), "data-player-id");
      && (id.None? ==> r == Err(ConversionError(NO_ID_MESSAGE)))
      && (id.Some? && ParseU32(id.value).None? ==> r == Err(ParseError))
      && (r.Ok? ==> id.Some? && ParseU32(id.value) == Some(r.value.id))
    ensures
      var id := GetAttrStr(Find(ToRich(c, d), "flagAlign"), "data-player-id");
      var name := InnerText(Find(ToRich(c, d), "text-ellipsis"));
      && (r.Ok? <==> id.Some? && ParseU32(id.value).Some? && name.Some?)
      && (id.Some? && ParseU32(id.value).Some? && name.None? ==> r == Err(ConversionError(NO_NAME_MESSAGE)))
    ensures r.Ok? ==> Some(r.value.nickname) == InnerText(Find(ToRich(c, d), "text-ellipsis"))
  {
    var node := ToRich(c, d);
    var found :- GetAttr(Find(node, "flagAlign"), "data-player-id", ParseU32);
    var id :- found.OkOr(ConversionError(NO_ID_MESSAGE));
    var nickname :- InnerText(Find(node, "text-ellipsis")).OkOr(ConversionError(NO_NAME_MESSAGE));
    Ok(Player(id, nickname))
  }

  /** The players the match-page pass appends, or its first error. */
  function MatchPagePlayers(d: Document): Result<seq<Player>> {
    MapAll(c => MatchCellPlayer(d, c), Containers(d, "td", "player"))
  }

  /** `for_matchpage`: appends one player per `td.player` cell, in document
      order, keeping what `r` already held. */
  method ForMatchpage(d: Document, r: seq<Player>) returns (out: seq<Player>, res: Result<()>)
    ensures |r| <= |out| && out[..|r|] == r
    ensures res.Ok? <==> MatchPagePlayers(d).Ok?
    ensures res.Ok? ==> out == r + MatchPagePlayers(d).value
    ensures res.Err? ==> MatchPagePlayers(d) == Err(res.error)
    ensures res.Err? ==>
      var cs := Containers(d, "td", "player");
      && |out| - |r| < |cs|
      && MapAll(c => MatchCellPlayer(d, c), cs[..|out| - |r|]) == Ok(out[|r|..])
      && MatchCellPlayer(d, cs[|out| - |r|]) == Err(res.error)
  {
    out, res := AppendAll(c => MatchCellPlayer(d, c), Containers(d, "td", "player"), r);
    assert out == out[..|r|] + out[|r|..];
  }

  // ---------------------------------------------------------------------
  // Team page: one player per `col-custom` link below the first
  // `div.bodyshot-team-bg`
  // ---------------------------------------------------------------------

  /** One `col-custom` tag: the nickname is its `title`, the id the third
      segment of its `href`. */
  function TeamLinkPlayer(t: Node): (r: Result<Player>)
    requires t.Tag?
    ensures TagAttrStr(t, "title").None? ==> r == Err(ConversionError(NO_TITLE_MESSAGE))
    ensures TagAttrStr(t, "title").Some? && TagAttrStr(t, "href").None? ==> r == Err(ConversionError(NO_HREF_MESSAGE))
    ensures TagAttrStr(t, "title").Some? && TagAttrStr(t, "href").Some? ==>
      r == (match SegmentId(TagAttrStr(t, "href").value, BAD_ID_MESSAGE)
            case Ok(id) => Ok(Player(id, TagAttrStr(t, "title").value))
            case Err(e) => Err(e))
  {
    var name :- TagAttrStr(t, "title").OkOr(ConversionError(NO_TITLE_MESSAGE));
    var href :- TagAttrStr(t, "href").OkOr(ConversionError(NO_HREF_MESSAGE));
    var id :- SegmentId(href, BAD_ID_MESSAGE);
    Ok(Player(id, name))
  }

  /** A player link "/player/<id>/<nick>" titled with the nickname gives
      that player. */
  lemma TeamLinkPlayerOfLink(t: Node, id: U32, nick: string)
    requires t.Tag?
    requires TagAttrStr(t, "title") == Some(nick)
    requires TagAttrStr(t, "href") == Some("/player/" + NatToString(id) + "/" + nick)
    ensures TeamLinkPlayer(t) == Ok(Player(id, nick))
  {
    assert "/" + "player" + "/" == "/player/";
    SegmentIdOfLink("player", id, nick, BAD_ID_MESSAGE);
  }

  function TeamLinkParser(d: Document): Handle --> Result<Player> {
    c requires IsTagAt(d, c) => TeamLinkPlayer(Get(d, c).value)
  }

  /** Every node `select_nodes` yields is a tag. */
  lemma ClassNodesAreTags(d: Document, p: Handle, cls: string)
    ensures forall c | c in ClassNodes(d, p, cls) :: IsTagAt(d, c)
  {
    forall c | c in ClassNodes(d, p, cls) ensures IsTagAt(d, c) {
      ClassNodesExact(d, p, cls, c);
    }
  }

  /** The players the team-page pass appends, or its first error: nothing
      when the page has no `div.bodyshot-team-bg`, otherwise one per
      `col-custom` tag below the first such container. */
  function TeamPagePlayers(d: Document): Result<seq<Player>> {
    match FirstOf(Containers(d, "div", "bodyshot-team-bg"))
    case None => Ok([])
    case Some(p) =>
      ClassNodesAreTags(d, p, "col-custom");
      MapAll(TeamLinkParser(d), ClassNodes(d, p, "col-custom"))
  }

  /** `for_teampage`: without a team container `r` is returned unchanged
      and the pass succeeds; otherwise one player per `col-custom` tag of
      the first container is appended, in document order. */
  method ForTeampage(d: Document, r: seq<Player>) returns (out: seq<Player>, res: Result<()>)
    ensures |r| <= |out| && out[..|r|] == r
    ensures Containers(d, "div", "bodyshot-team-bg") == [] ==> out == r && res == Ok(())
    ensures res.Ok? <==> TeamPagePlayers(d).Ok?
    ensures res.Ok? ==> out == r + TeamPagePlayers(d).value
    ensures res.Err? ==> TeamPagePlayers(d) == Err(res.error)
    ensures res.Err? ==>
      && FirstOf(Containers(d, "div", "bodyshot-team-bg")).Some?
      && var ns := ClassNodes(d, FirstOf(Containers(d, "div", "bodyshot-team-bg")).value, "col-custom");
      && |out| - |r| < |ns|
      && (ClassNodesAreTags(d, FirstOf(Containers(d, "div", "bodyshot-team-bg")).value, "col-custom");
          MapAll(TeamLinkParser(d), ns[..|out| - |r|]) == Ok(out[|r|..]))
      && IsTagAt(d, ns[|out| - |r|])
      && TeamLinkPlayer(Get(d, ns[|out| - |r|]).value) == Err(res.error)
  {
    var selector := Containers(d, "div", "bodyshot-team-bg");
    if selector == [] {
      return r, Ok(());
    }
    var parent := selector[0];
    var nodes := SelectNodes(d, parent, "col-custom");
    ClassNodesAreTags(d, parent, "col-custom");
    out, res := AppendAll(TeamLinkParser(d), nodes, r);
    assert out == out[..|r|] + out[|r|..];
  }

  // ---------------------------------------------------------------------
  // The whole conversion
  // ---------------------------------------------------------------------

  /** `convert`: the team-page pass, then the match-page pass, into one
      vector; the first pass to fail decides the error. */
  method ConvertPage(d: Document) returns (r: Result<seq<Player>>)
    ensures r.Ok? <==> TeamPagePlayers(d).Ok? && MatchPagePlayers(d).Ok?
    ensures r.Ok? ==> r.value == TeamPagePlayers(d).value + MatchPagePlayers(d).value
    ensures TeamPagePlayers(d).Err? ==> r == Err(TeamPagePlayers(d).error)
    ensures TeamPagePlayers(d).Ok? && MatchPagePlayers(d).Err? ==> r == Err(MatchPagePlayers(d).error)
  {
    var result: seq<Player> := [];
    var res;
    result, res := ForTeampage(d, result);
    if res.Err? {
      return Err(res.error);
    }
    result, res := ForMatchpage(d, result);
    if res.Err? {
      return Err(res.error);
    }
    return Ok(result);
  }

  /** On success the players come one per team-page link, then one per
      match-page cell, each in document order. */
  lemma ConvertedCounts(d: Document)
    requires TeamPagePlayers(d).Ok? && MatchPagePlayers(d).Ok?
    ensures |MatchPagePlayers(d).value| == |Containers(d, "td", "player")|
    ensures FirstOf(Containers(d, "div", "bodyshot-team-bg")).None? ==> TeamPagePlayers(d).value == []
    ensures FirstOf(Containers(d, "div", "bodyshot-team-bg")).Some? ==>
      |TeamPagePlayers(d).value| == |ClassNodes(d, FirstOf(Containers(d, "div", "bodyshot-team-bg")).value, "col-custom")|
  {
    MapAllOk(c => MatchCellPlayer(d, c), Containers(d, "td", "player"));
    var first := FirstOf(Containers(d, "div", "bodyshot-team-bg"));
    if first.Some? {
      ClassNodesAreTags(d, first.value, "col-custom");
      MapAllOk(TeamLinkParser(d), ClassNodes(d, first.value, "col-custom"));
    }
  }
}
