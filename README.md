# hltv-rust core, modelled in Dafny

hltv-rust scrapes pages of the HLTV esports site into typed records. Its core
has four parts, and this project models each of them:

- **The query engine over a parsed HTML tree** (`tl_extensions.rs`):
  - depth-first searches for tags that carry a class token;
  - the `RichNode` wrapper, whose lookups chain and let an absent node flow
    through silently.

  The parsed document is a Dafny value. A `Node` is a text node or a tag with
  a name, an attribute map and children, and a node handle is the path of
  child indices that leads to it. The pre-order filter `Select` is the
  reference definition. The recursive searches `Dfs`, `DfsFirst` and
  `DfsFirstWhere` are methods proved equal to `Select`, or to its first
  element.
- **Lookup tables** (`data.rs`, `request/mod.rs`): the `Map` name and display
  tables, the `EventTypeFilter` display, the `Default` values and the plain
  constructors.
- **Page converters** (`converter/upcoming.rs`, `matches.rs`, `results.rs`,
  `player.rs`). Each converter walks its containers and builds one record per
  container. An id is the third `/`-separated segment of a link. The first
  failing container aborts the whole conversion.
  - The conversion loops are methods, proved against the fail-fast fold
    `Convert.MapAll`.
  - The player converter threads one caller-owned vector through two passes.
    It is modelled as a sequence passed in and handed back, including the
    records appended before an error.
- **Query-string builders** (`request/results.rs`, `request/upcoming.rs`,
  `request.rs`, `request/match_page.rs`):
  - Each builder is a class. Its setters replace one field of the filter
    record.
  - Serialising is a method that appends with loops. It is proved equal to a
    specification string.
  - That string is then proved to be the `&`-join of a field list. This gives
    the key counts and the split round trip.

Integers are unbounded in Dafny:
- `u32` is the subset type `U32`.
- Rust's `parse::<u32>` and `parse::<i64>` are written out: digits only, an
  optional leading `+`, and range checks.
- Rust's truncating `/` on `i64` is `Strings.TruncDiv`.
- Dates are integer Unix seconds.

Two error rules of the converters shape much of the model:
- `parse_stars` fails on a missing or malformed `stars` attribute. The
  upcoming.rs converter calls it, so such a container fails there. The
  matches.rs converter never reads the attribute and sets stars to 0.
- A player row that fails extraction aborts the whole player conversion.

## Model

| member | source | states |
|---|---|---|
| Strings.NatToString | src/request/match_page.rs:12 | A number's decimal text is non-empty and all digits. It starts with '0' only for zero, and has exactly one digit iff the number is below 10. |
| Strings.DecimalValueOfNatToString | src/request/match_page.rs:12 | Reading the decimal text of `n` back as a number gives `n`. |
| Strings.NatToStringInjective | src/request/match_page.rs:12 | Different numbers have different decimal texts. |
| Strings.ParseU32 | src/converter/upcoming.rs:58 | `parse::<u32>` accepts only decimal digits with an optional leading '+'. The empty string and a lone "+" are rejected. |
| Strings.ParseU32OfNatToString | src/converter/upcoming.rs:58 | Every `u32` written in decimal parses back to itself. |
| Strings.ParseI64 | src/converter/upcoming.rs:43-44 | `parse::<i64>` yields a value in i64 range. The value is negative only when the text starts with '-'. "", "+" and "-" are rejected. |
| Strings.ParseI64OfNatToString | src/converter/upcoming.rs:43-44 | Every non-negative i64 written in decimal parses back to itself. |
| Strings.TruncDiv | src/converter/upcoming.rs:47 | Rust's `/` rounds toward zero: `b * q` is at most `a` and within `b` of it for a non-negative `a`, and at least `a` and within `b` of it for a negative one. |
| Strings.Split | src/converter/upcoming.rs:58 | `split(sep)` yields at least one piece, and no piece contains the separator. |
| Strings.JoinSplit | src/converter/upcoming.rs:58 | Joining the pieces of a split with the separator gives back the string. |
| Strings.SplitJoin | src/converter/upcoming.rs:58 | Splitting the join of separator-free pieces gives back the pieces. |
| Strings.SplitAtSeparator | src/converter/upcoming.rs:58 | Splitting `a + sep + b` is the split of `a` followed by the split of `b`. |
| Strings.SplitNoSeparator | src/converter/upcoming.rs:58 | A string without the separator splits into itself alone. |
| Strings.Nth | src/converter/upcoming.rs:58 | `nth(k)` is present iff `k` is below the length, and it is then the `k`-th piece. |
| Strings.WordsAreTokens | src/tl_extensions.rs:86 | Every class token read from a `class` attribute is non-empty and holds no whitespace. |
| Strings.WordsAfterToken | src/tl_extensions.rs:86 | A token followed by a space is the first class token, and the rest of the attribute is split on its own. |
| Dom.Dfs | src/tl_extensions.rs:200-221 | `dfs` keeps what `result` held. It appends exactly the tags of the subtree that carry the class, in pre-order with the root tested first; a text node adds nothing. |
| Dom.DfsChildren | src/tl_extensions.rs:217-220 | The loop over the children appends each child's matches in child order. |
| Dom.DfsFirst | src/tl_extensions.rs:223-239 | `dfs_first` returns the first element of the list `dfs` builds, and `None` exactly when that list is empty. |
| Dom.DfsFirstWhere | src/tl_extensions.rs:241-257 | `dfs_first_where` returns the first node of the subtree, in pre-order, that satisfies the predicate, or `None`. |
| Dom.SelectNodes | src/tl_extensions.rs:191-195 | `select_nodes` returns the class matches of the subtree in pre-order. |
| Dom.SelectFirst | src/tl_extensions.rs:188-190 | `select_first` returns the first of those matches. |
| Dom.ClassNodesExact | src/tl_extensions.rs:182-195 | A handle is selected iff it lies in the subtree and names a tag carrying the class. The selection is in strict document order, so it has no duplicates. |
| Dom.SelectSound | src/tl_extensions.rs:200-221 | Every selected handle extends the root's path and names a node satisfying the predicate. |
| Dom.SelectComplete | src/tl_extensions.rs:200-221 | Every node of the subtree that satisfies the predicate is selected. |
| Dom.SelectInDocumentOrder | src/tl_extensions.rs:200-221 | Pre-order selection lists handles in strictly increasing document order. |
| Dom.QuerySelectorExact | src/converter/upcoming.rs:13 | `query_selector("name.cls")` yields exactly the tags with that name and class, in document order. |
| Dom.QuerySelectorTags | src/converter/upcoming.rs:13 | Every handle `query_selector` yields names a tag. |
| Dom.TagAttrStr | src/tl_extensions.rs:40-43 | `HTMLTag::get_attr_str` is present iff the attribute exists with a value, and it is that value. |
| Dom.TagGetAttr | src/tl_extensions.rs:26-38 | `HTMLTag::get_attr` has three outcomes: `Ok(None)` iff the attribute is missing; `Err(ParseError)` iff it is present but does not parse; otherwise `Ok(Some)` of the parsed value. |
| Dom.GetAttrStr | src/tl_extensions.rs:124-129 | The result is present iff the node is present, is a tag and has the attribute, and it is then the tag's attribute. |
| Dom.GetAttr | src/tl_extensions.rs:131-143 | The same three outcomes as `HTMLTag::get_attr`, over a node that may be absent. |
| Dom.GetAttrOfTag | src/tl_extensions.rs:131-143 | On a present tag, `RichNode::get_attr` and `HTMLTag::get_attr` agree. |
| Dom.CompareClass | src/tl_extensions.rs:80-88 | `compare_class` holds exactly for a tag whose class list holds the class. It is false on a text node. |
| Dom.GetNode | src/tl_extensions.rs:173-175 | `get` is present iff the handle is present and names a node of the document, and it is then that node. |
| Dom.FindWhere | src/tl_extensions.rs:71-78 | `find_where` stays in the same document and is absent on an absent node. |
| Dom.FindWhereFirstMatch | src/tl_extensions.rs:71-78 | On a present node, `find_where` is absent iff no node of the subtree satisfies `f`. Otherwise it names a node satisfying `f` that precedes every other such node, with the node itself tested first. |
| Dom.FindAll | src/tl_extensions.rs:99-108 | `find_all` is empty on an absent node. Otherwise it holds one wrapper per `select_nodes` handle, in order. |
| Dom.FindFirstMatch | src/tl_extensions.rs:90-97 | On a present node, `find` stays in the same document. It is absent iff `select_nodes` finds nothing. Otherwise it is a tag carrying the class that precedes every other match, so it is the node `select_first` returns. |
| Dom.Child | src/tl_extensions.rs:110-122 | `child(i)` is present iff the node is a present tag with more than `i` tag children. It is then the child with exactly `i` tags before it, so text children are skipped. |
| Dom.HasClass | src/tl_extensions.rs:145-151 | `has_class` is `None` iff the node is absent or not a tag. Otherwise it tells whether the class is one of the node's class tokens. |
| Dom.InnerText | src/tl_extensions.rs:167-171 | `inner_text` is absent iff the node is, and is otherwise the node's text content. |
| Dom.InnerParse | src/tl_extensions.rs:153-165 | `inner_parse` is `Ok(None)` iff the node is absent and `Err(ParseError)` iff its text does not parse. Otherwise it is `Ok(Some)` of the parsed text. |
| Dom.AbsentPropagates | src/tl_extensions.rs:72-108 | On an absent node every wrapper operation yields absent, empty or `Ok(None)`. |
| Dom.HasClassTokens | src/tl_extensions.rs:293-302 | For a tag with `class="first second"`, `has_class` holds for "first" and "second" but not for "third". |
| Data.MapFromString | src/data.rs:242-261 | `Map::from` gives a variant other than `Unknown` only for that variant's exact name. |
| Data.MapFromName | src/data.rs:242-261 | Each of the twelve exact names maps to its own variant. |
| Data.MapDisplay | src/data.rs:263-281 | `Unknown` displays as "n/a". |
| Data.MapDisplayLowercase | src/data.rs:263-281 | Every other variant displays as "de_" followed by its name in lower case. |
| Data.MapDisplayInjective | src/data.rs:265-279 | Different variants display differently. |
| Data.MapFromDisplayIsUnknown | src/data.rs:242-281 | `Map::from` applied to any display string gives `Unknown`. |
| Data.MapDisplayHasNoDelimiter | src/data.rs:263-281 | No display string contains '&' or '='. |
| Data.MapDefault | src/data.rs:224-227 | The default map is `Unknown`: it is what `Map::from("")` gives, and it displays as "n/a". |
| Data.WhichTeamDefault | src/data.rs:172-175 | The default `WhichTeam` is neither `First` nor `Second`. |
| Data.NewTeam | src/data.rs:41-45 | `Team::new` stores its arguments unchanged. |
| Data.NewMapScore | src/data.rs:198-202 | `MapScore::new` stores its arguments unchanged. |
| RequestFilter.FilterDisplay | src/request/mod.rs:20-28 | `All` displays as "All", `Lan` as "LAN", `Online` as "Online". |
| RequestFilter.FilterDisplayInjective | src/request/mod.rs:22-26 | The three display strings are distinct, and none contains '&' or '='. |
| RequestFilter.FilterDefault | src/request/mod.rs:12-18 | The default filter displays as "All". |
| Query.AppendParams | src/request/results.rs:24-26 | Appending one `prefix + value` per list element, in list order, keeps the string built so far as a prefix. |
| Query.JoinFields | src/request/results.rs:24-35 | Seen as '&'-separated fields, the appended parameters are one `key=value` field per element. |
| Query.CountKeyFields | src/request/results.rs:24-35 | A group of such fields has one field with its key per element, and none with a key that clashes with it. |
| Query.IdFieldsDelimiterFree | src/request/results.rs:24-32 | A field holding a decimal id contains no '&'. |
| ResultsRequest.ResultQuery | src/request/results.rs:16-38 | The `+=` loops of `From<ResultRB>` build exactly the specified query string. |
| ResultsRequest.JoinResultHead | src/request/results.rs:18-23 | The string starts "results?stars=<n>&matchType=<filter>". It continues with "&startDate=..&endDate=.." iff both dates are set. |
| ResultsRequest.ResultQueryJoin | src/request/results.rs:18-35 | The query string is the '&'-join of its field list: the head, then events, players, teams and maps in that group order, each in list order. |
| ResultsRequest.ResultFieldsDelimiterFree | src/request/results.rs:18-35 | When the dates hold no '&', no field of the query contains '&'. |
| ResultsRequest.ResultQuerySplit | src/request/results.rs:18-35 | When the dates hold no '&', splitting the query at '&' gives back its field list. |
| ResultsRequest.ResultKeyCounts | src/request/results.rs:21-35 | The counts of `event=`, `player=`, `team=` and `map=` fields equal the lengths of their lists. There is one `startDate=` field iff both dates are set. |
| ResultsRequest.DefaultResultQuery | src/request/results.rs:4-14 | The default filters serialise to "results?stars=0&matchType=All". |
| ResultsRequest.DateTextIsDelimiterFree | src/request/results.rs:56-72 | The dates the setters write ("y-m-d" without padding, "y-01-01", "y-12-31") contain no '&'. |
| ResultsRequest.ResultsBuilder.Results | src/request/results.rs:41-46 | `results()` holds the default filters. |
| ResultsRequest.ResultsBuilder.Stars | src/request/results.rs:49-53 | `stars` replaces the star filter and nothing else. |
| ResultsRequest.ResultsBuilder.Year | src/request/results.rs:54-60 | `year(y)` sets `from` to "y-01-01" and `to` to "y-12-31", and nothing else. |
| ResultsRequest.ResultsBuilder.From | src/request/results.rs:61-66 | `from(y, m, d)` sets `from` to "y-m-d" and nothing else. |
| ResultsRequest.ResultsBuilder.To | src/request/results.rs:67-72 | `to(y, m, d)` sets `to` to "y-m-d" and nothing else. |
| ResultsRequest.ResultsBuilder.Events | src/request/results.rs:73-78 | `events` replaces the event list and nothing else. |
| ResultsRequest.ResultsBuilder.Players | src/request/results.rs:79-84 | `players` replaces the player list and nothing else. |
| ResultsRequest.ResultsBuilder.Team | src/request/results.rs:85-90 | `team(id)` makes the team list the single id and changes nothing else. |
| ResultsRequest.ResultsBuilder.Teams | src/request/results.rs:91-96 | `teams` replaces the team list and nothing else. |
| ResultsRequest.ResultsBuilder.Map | src/request/results.rs:98-103 | `map(m)` makes the map list the single map and changes nothing else. |
| ResultsRequest.ResultsBuilder.Maps | src/request/results.rs:104-109 | `maps` replaces the map list and nothing else. |
| ResultsRequest.ResultsBuilder.EventType | src/request/results.rs:110-114 | `event_type` replaces the event filter and nothing else. |
| UpcomingRequest.UpcomingQuery | src/request/upcoming.rs:10-22 | `From<UpcomingRB>` builds exactly the specified string: the top-tier query when the flag is set, otherwise the event-type field and then the events in list order. |
| UpcomingRequest.UpcomingQuerySplit | src/request/upcoming.rs:11-21 | The query is the '&'-join of its field list, and splitting it at '&' gives back that list. |
| UpcomingRequest.UpcomingEventCount | src/request/upcoming.rs:12-21 | With the top-tier flag the query has no `event=` and no `eventType=` field. Otherwise it has one `event=` field per event and exactly one `eventType=` field. |
| UpcomingRequest.DefaultUpcomingQuery | src/request/upcoming.rs:3-8 | The default filters serialise to "matches?&eventType=All". |
| UpcomingRequest.TopTierOverrides | src/request/upcoming.rs:12-14 | With the top-tier flag set, the events and the filter do not change the query. |
| UpcomingRequest.UpcomingBuilder.Upcoming | src/request/upcoming.rs:24-29 | `upcoming()` holds the default filters. |
| UpcomingRequest.UpcomingBuilder.TopTier | src/request/upcoming.rs:33-36 | `top_tier` only sets the flag, so it is idempotent, and the query becomes the top-tier query. |
| UpcomingRequest.UpcomingBuilder.Events | src/request/upcoming.rs:38-41 | `events` replaces the event list and nothing else. |
| UpcomingRequest.UpcomingBuilder.EventType | src/request/upcoming.rs:43-46 | `event_type` replaces the filter and nothing else. |
| RequestUrl.RequestBuilder.Upcoming | src/request.rs:25-27 | `upcoming()` starts from "https://www.hltv.org/matches?". |
| RequestUrl.RequestBuilder.TopTier | src/request.rs:31-34 | `top_tier` appends exactly "&predefinedFilter=top_tier". |
| RequestUrl.RequestBuilder.Event | src/request.rs:36-40 | `event(id)` appends "&event=" and then the id in decimal. |
| RequestUrl.RequestBuilder.EventType | src/request.rs:42-46 | `event_type` appends "&eventType=" and then the type's text. |
| RequestUrl.RequestBuilder.Build | src/request.rs:18-20 | `build` copies the URL unchanged into the request. |
| RequestUrl.UpcomingTopTierEvent | src/request.rs:25-40 | The chain `upcoming()`, `top_tier()`, `event(id)`, `build()` gives the starting URL followed by the top-tier filter and the event parameter, for every id. |
| RequestUrl.GetMatch | src/request/match_page.rs:8-15 | The match URL is "https://www.hltv.org/matches/<id>/xyz", and it always ends in "/xyz". |
| RequestUrl.GetMatchId | src/request/match_page.rs:12 | Splitting the match URL at '/' gives its pieces, and the piece at index 4 parses back to the id. |
| RequestUrl.GetMatchInjective | src/request/match_page.rs:12 | Different ids give different match URLs. |
| Convert.SegmentId | src/converter/upcoming.rs:58-61 | Fewer than three segments gives `ParseError`. A third segment that is not a `u32` gives the converter's `ConversionError`. Otherwise the result is that segment's value. |
| Convert.SegmentIdOfLink | src/converter/upcoming.rs:58-61 | A link "/section/<id>/<slug>" yields its id, whatever the slug. |
| Convert.SegmentIdOfShortLink | src/converter/upcoming.rs:58 | A relative link "matches/<id>" has too few segments and gives `ParseError`. |
| Convert.HrefId | src/converter/upcoming.rs:53-62 | A missing link on the first node with the class gives `ParseError`. Otherwise the id comes from the link's third segment. |
| Convert.FoundIsPresent | src/tl_extensions.rs:91-97 | A node that `find` returns is present in the same document. |
| Convert.ParseStars | src/converter/upcoming.rs:82-88 | A missing `stars` attribute gives a `ConversionError`. One that is not a `u32` gives `ParseError`. Otherwise the result is its value. |
| Convert.Containers | src/converter/upcoming.rs:13 | The containers a converter walks are the `query_selector` result, and each of them is a tag. |
| Convert.MapAllOk | src/converter/upcoming.rs:11-27 | A conversion succeeds iff every container converts. It then yields one record per container, in order. |
| Convert.MapAllErr | src/converter/upcoming.rs:11-27 | A failed conversion carries the error of the first container that fails, and every container before it converted. |
| Convert.ConvertAll | src/converter/upcoming.rs:12-26 | The push loop with `?` returns exactly the fail-fast conversion of the containers. |
| Convert.AppendAll | src/converter/player.rs:22-34 | The loop pushing into a caller's vector keeps the vector's earlier entries. It appends the converted records in order. On the first error it stops, with the records before that error already appended, and returns that error. |
| ConvertUpcoming.ParseTeam | src/converter/upcoming.rs:32-39 | A team is present iff its id attribute parses and its name node exists. It is never an error, and its logos are empty. |
| ConvertUpcoming.ParseDate | src/converter/upcoming.rs:42-50 | A missing attribute gives a `ConversionError` and an unparsable one `ParseError`. Otherwise the result is the milliseconds divided by 1000, rounded toward zero. |
| ConvertUpcoming.ParseId | src/converter/upcoming.rs:53-62 | The only errors are `ParseError` and this converter's id message; a missing link gives `ParseError`. |
| ConvertUpcoming.ParseIdOfLink | src/converter/upcoming.rs:53-62 | A link "/matches/<id>/<slug>" on the `match` node yields the id. |
| ConvertUpcoming.ParseEvent | src/converter/upcoming.rs:65-78 | The event is the event-name text when that node exists, else the `line-clamp-3` text of the empty-info block. With neither node it is a `ConversionError`. |
| ConvertUpcoming.ParseMatch | src/converter/upcoming.rs:14-25 | A record is built iff id, stars, event and date parse. The first failing field, in the order id, stars, event, date, decides the error. The format is `Bo1`. |
| ConvertUpcoming.ConvertPage | src/converter/upcoming.rs:11-27 | `convert` returns the fail-fast conversion of the `div.upcomingMatch` containers. |
| ConvertUpcoming.ConvertedRecords | src/converter/upcoming.rs:11-27 | On success there is one record per container, in document order, each of format `Bo1`. On failure the error is that of the first container that fails. |
| ConvertMatches.ParseTeam | src/converter/matches.rs:32-37 | A team is present iff its id attribute parses and its name node exists. It is never an error. |
| ConvertMatches.ParseId | src/converter/matches.rs:40-46 | The only errors are `ParseError` and this converter's id message; a missing link gives `ParseError`. |
| ConvertMatches.ParseIdRejectsNonNumeric | src/converter/matches.rs:40-46 | A link whose third segment is not a number gives this converter's `ConversionError`. |
| ConvertMatches.ParseEvent | src/converter/matches.rs:49-62 | The event is the event-name text, else the whole text of the empty-info block. With neither node it is a `ConversionError`. |
| ConvertMatches.ParseMatch | src/converter/matches.rs:14-24 | A record is built iff id and event parse. The id's error comes first, then the event's. Stars are 0, the format is `Bo1` and the date is 61 seconds. |
| ConvertMatches.ConvertPage | src/converter/matches.rs:11-27 | `convert` returns the fail-fast conversion of the `div.upcomingMatch` containers. |
| ConvertMatches.ConvertedRecords | src/converter/matches.rs:11-27 | On success the output has one record per container, in order, each with the placeholder stars, format and date. On failure the error is that of the first container that fails. |
| ConvertResults.GetRoots | src/converter/results.rs:22-24 | The roots are exactly the `div.result-con` tags, in document order. |
| ConvertResults.ParseTeam | src/converter/results.rs:26-31 | The team name is the text of the team node, and a `ConversionError` iff that node is absent. |
| ConvertResults.ParseWhich | src/converter/results.rs:33-43 | The result is `First` iff team1's team node has the class `team-won`, otherwise `Second`. Without the node it is a `ConversionError`, and it is never `WhichTeam::None`. |
| ConvertResults.ParseId | src/converter/results.rs:44-55 | The id is read from the `a-reset` link. A missing link gives `ParseError`, and the only other error is the id message. |
| ConvertResults.ParseIdOfLink | src/converter/results.rs:44-55 | A link "/matches/<id>/<slug>" on the `a-reset` node yields the id. |
| ConvertResults.ConvertPage | src/converter/results.rs:8-18 | `convert` always succeeds with no records, because it never pushes. |
| ConvertPlayer.MatchCellPlayer | src/converter/player.rs:22-33 | A cell converts iff its `data-player-id` parses and its `text-ellipsis` node exists. A missing id gives a `ConversionError`, an unparsable one `ParseError`, and a missing name node its own `ConversionError`. On success the id is that attribute and the nickname the `text-ellipsis` text. |
| ConvertPlayer.ForMatchpage | src/converter/player.rs:20-35 | The existing entries stay. One player per `td.player` cell is appended in document order, or the pass fails with the first failing cell's error, and the players of the cells before it have already been appended. |
| ConvertPlayer.TeamLinkPlayer | src/converter/player.rs:44-66 | A missing `title` or `href` gives its `ConversionError`. Otherwise the id comes from the href's third segment, and the nickname is the title. |
| ConvertPlayer.TeamLinkPlayerOfLink | src/converter/player.rs:56-66 | A link "/player/<id>/<nick>" titled with the nickname gives that player. |
| ConvertPlayer.ForTeampage | src/converter/player.rs:38-69 | With no `div.bodyshot-team-bg` the vector is unchanged and the pass succeeds. Otherwise one player per `col-custom` tag of the first container is appended, in document order. On the first failing tag the pass fails with its error, and the players of the tags before it have already been appended. |
| ConvertPlayer.ConvertPage | src/converter/player.rs:7-17 | `convert` succeeds iff both passes do, with the team-page players before the match-page players. The first failing pass decides the error. |
| ConvertPlayer.ConvertedCounts | src/converter/player.rs:7-17 | On success there is one match-page player per cell, and one team-page player per link of the first team container (none without one). |

## Left out

- The HTML tokenizer and parser of the `tl` crate are not modelled. The document is an already-parsed tree value, and `is_class_member` is membership in the ASCII-whitespace split of the `class` attribute.
- `inner_text` of a tag is the concatenation of its descendants' text. Entity decoding and the tokenizer's own whitespace rules are not modelled.
- HTML comment nodes are not a separate case: they are not tags, have no children and add nothing to `inner_text`, so they behave as `Text("")`.
- A dangling node handle makes the source panic on `unwrap`. In the model no handle dangles, and `get` of one is simply absent.
- Dom.DfsFirstWhere: the source's predicate is a closure over the wrapper. The model takes a predicate on the node, which is all `compare_class` looks at.
- Convert.ParseStars: its non-tag `unwrap` panic is excluded by `requires t.Tag?`, which every container meets.
- `parse_stars` of src/converter/matches.rs (lines 66-74) is the same function as that of src/converter/upcoming.rs. It is modelled once, as Convert.ParseStars, and that converter's `convert` never calls it.
- Network fetching, `Request::fetch` and every test that contacts the live site are left out: they are I/O.
- `chrono` date types are not modelled; dates are integer Unix seconds. ConvertUpcoming.ParseDate: the panic of `from_timestamp` on an out-of-range value is not modelled.
- The `f32` statistics fields of src/data.rs are left out: they are floating point and no shown code computes them.
- The `println!` of the results converter is left out, because it is output only.
- The match-page and team-page converters always fail, so no per-map score, format or status rules are modelled.
- The converters src/converter/match_page.rs, src/converter/team_page.rs and src/converter.rs are stubs that always fail. src/lib.rs and src/converter/mod.rs only declare types and modules. None of them is modelled.
- RequestUrl.RequestBuilder.EventType: the `EventType` to string conversion is not part of this model, so the appended text is a parameter.
- `HLTV_ROOT` is declared and never used, so it is not modelled.
- The builders' by-value `self` chaining becomes methods that update a class instance in place. The phantom type parameters of `Request` and `RequestBuilder` are dropped.
- Caller-owned `&mut Vec` parameters are sequences passed in and handed back.
