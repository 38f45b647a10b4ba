/**
 * The request builder for the results page (src/request/results.rs): the
 * filter record `ResultRB`, its serialisation to a query string, and the
 * builder whose setters update the record in place.
 */
module ResultsRequest {
  import opened Strings
  import opened Query
  import opened Data
  import opened RequestFilter

  /** `ResultRB`: the filters of a results query. */
  datatype ResultRB = ResultRB(
    stars: U32,
    from: string,
    to: string,
    events: seq<U32>,
    players: seq<U32>,
    teams: seq<U32>,
    maps: seq<Map>,
    matchFilter: EventTypeFilter)

  /** The derived `ResultRB::default()`. */
  function DefaultResultRB(): ResultRB {
    ResultRB(0, "", "", [], [], [], [], FilterDefault())
  }

  /** Whether the date range is sent: only when both ends are set. */
  predicate HasDates(d: ResultRB) {
    d.from != "" && d.to != ""
  }

  /** The query `From<ResultRB> for String` produces. */
  function ResultQueryString(d: ResultRB): string {
    "results?" + ("stars=" + NatToString(d.stars))
    + ("&matchType=" + FilterDisplay(d.matchFilter))
    + (if HasDates(d) then "&startDate=" + d.from + "&endDate=" + d.to else "")
    + Params("&event=", d.events, IdText)
    + Params("&player=", d.players, IdText)
    + Params("&team=", d.teams, IdText)
    + Params("&map=", d.maps, MapDisplay)
  }

  /** `impl From<ResultRB> for String`: the fixed head, the date range when
      both ends are set, then one parameter per event, player, team and map,
      each group in list order. */
  method ResultQuery(d: ResultRB) returns (result: string)
    ensures result == ResultQueryString(d)
  {
    result := "results?";
    result := result + ("stars=" + NatToString(d.stars));
    result := result + ("&matchType=" + FilterDisplay(d.matchFilter));
    if d.from != "" && d.to != "" {
      result := result + ("&startDate=" + d.from + "&endDate=" + d.to);
    }
    result := AppendParams(result, "&event=", d.events, IdText);
    result := AppendParams(result, "&player=", d.players, IdText);
    result := AppendParams(result, "&team=", d.teams, IdText);
    result := AppendParams(result, "&map=", d.maps, MapDisplay);
  }

  /** The query's '&'-separated fields: the head, the two dates when both
      are set, then one "key=value" field per list element. */
  function ResultFields(d: ResultRB): seq<string> {
    ["results?stars=" + NatToString(d.stars), "matchType=" + FilterDisplay(d.matchFilter)]
    + (if HasDates(d) then ["startDate=" + d.from, "endDate=" + d.to] else [])
    + Fields("event=", d.events, IdText)
    + Fields("player=", d.players, IdText)
    + Fields("team=", d.teams, IdText)
    + Fields("map=", d.maps, MapDisplay)
  }

  /** The dates a builder can hold never contain the delimiter. */
  predicate DateFree(d: ResultRB) {
    '&' !in d.from && '&' !in d.to
  }

  lemma MapFieldsDelimiterFree(key: string, maps: seq<Map>)
    requires '&' !in key
    ensures DelimiterFree(Fields(key, maps, MapDisplay))
  {
    forall i | 0 <= i < |maps| ensures '&' !in Fields(key, maps, MapDisplay)[i] {
      assert Fields(key, maps, MapDisplay)[i] == key + MapDisplay(maps[i]);
      MapDisplayHasNoDelimiter(maps[i]);
    }
  }

  /** The fields before the list parameters. */
  function ResultHeadFields(d: ResultRB): seq<string> {
    ["results?stars=" + NatToString(d.stars), "matchType=" + FilterDisplay(d.matchFilter)]
    + (if HasDates(d) then ["startDate=" + d.from, "endDate=" + d.to] else [])
  }

  lemma JoinResultHead(d: ResultRB)
    ensures Join(ResultHeadFields(d), '&') ==
      "results?" + ("stars=" + NatToString(d.stars))
      + ("&matchType=" + FilterDisplay(d.matchFilter))
      + (if HasDates(d) then "&startDate=" + d.from + "&endDate=" + d.to else "")
  {
    var n, f := NatToString(d.stars), FilterDisplay(d.matchFilter);
    var f0 := ["results?stars=" + n, "matchType=" + f];
    JoinHeadPair(n, f);
    if HasDates(d) {
      JoinSnoc(f0, "startDate=" + d.from, '&');
      JoinSnoc(f0 + ["startDate=" + d.from], "endDate=" + d.to, '&');
      assert ResultHeadFields(d) == f0 + ["startDate=" + d.from] + ["endDate=" + d.to];
      DateParams(Join(f0, '&'), d.from, d.to);
    } else {
      assert ResultHeadFields(d) == f0;
    }
  }

  lemma JoinHeadPair(n: string, f: string)
    ensures Join(["results?stars=" + n, "matchType=" + f], '&') == "results?" + ("stars=" + n) + ("&matchType=" + f)
  {
    var f0 := ["results?stars=" + n, "matchType=" + f];
    assert f0[1..] == ["matchType=" + f];
    assert "results?stars=" + n == "results?" + ("stars=" + n);
    assert ['&'] + ("matchType=" + f) == "&matchType=" + f;
  }

  lemma DateParams(s: string, from: string, to: string)
    ensures s + ['&'] + ("startDate=" + from) + ['&'] + ("endDate=" + to) == s + ("&startDate=" + from + "&endDate=" + to)
  {
    assert ['&'] + ("startDate=" + from) == "&startDate=" + from;
    assert ['&'] + ("endDate=" + to) == "&endDate=" + to;
  }

  /** The query is its fields joined by '&'. */
  lemma ResultQueryJoin(d: ResultRB)
    ensures ResultFields(d) == ResultHeadFields(d)
      + Fields("event=", d.events, IdText) + Fields("player=", d.players, IdText)
      + Fields("team=", d.teams, IdText) + Fields("map=", d.maps, MapDisplay)
    ensures Join(ResultFields(d), '&') == ResultQueryString(d)
  {
    var f1 := ResultHeadFields(d);
    var f2 := f1 + Fields("event=", d.events, IdText);
    var f3 := f2 + Fields("player=", d.players, IdText);
    var f4 := f3 + Fields("team=", d.teams, IdText);
    JoinResultHead(d);
    JoinFields(f1, "event=", d.events, IdText);
    JoinFields(f2, "player=", d.players, IdText);
    JoinFields(f3, "team=", d.teams, IdText);
    JoinFields(f4, "map=", d.maps, MapDisplay);
    assert "&" + "event=" == "&event=";
    assert "&" + "player=" == "&player=";
    assert "&" + "team=" == "&team=";
    assert "&" + "map=" == "&map=";
  }

  /** No field of a builder's query holds the delimiter. */
  lemma ResultFieldsDelimiterFree(d: ResultRB)
    requires DateFree(d)
    ensures DelimiterFree(ResultFields(d))
  {
    NoDelimiterInNumber(d.stars);
    FilterDisplayInjective(d.matchFilter, d.matchFilter);
    var f1 := ResultHeadFields(d);
    assert DelimiterFree(f1);
    var e := Fields("event=", d.events, IdText);
    var p := Fields("player=", d.players, IdText);
    var t := Fields("team=", d.teams, IdText);
    var m := Fields("map=", d.maps, MapDisplay);
    IdFieldsDelimiterFree("event=", d.events);
    IdFieldsDelimiterFree("player=", d.players);
    IdFieldsDelimiterFree("team=", d.teams);
    MapFieldsDelimiterFree("map=", d.maps);
    DelimiterFreeAppend(f1, e);
    DelimiterFreeAppend(f1 + e, p);
    DelimiterFreeAppend(f1 + e + p, t);
    DelimiterFreeAppend(f1 + e + p + t, m);
    ResultQueryJoin(d);
  }

  /** Splitting the query at '&' gives exactly its fields, in order. */
  lemma ResultQuerySplit(d: ResultRB)
    requires DateFree(d)
    ensures Split(ResultQueryString(d), '&') == ResultFields(d)
  {
    ResultQueryJoin(d);
    ResultFieldsDelimiterFree(d);
    SplitJoin(ResultFields(d), '&');
  }

  /** The keys whose occurrences are counted. */
  predicate CountedKey(k: string) {
    k == "event=" || k == "player=" || k == "team=" || k == "map=" || k == "startDate="
  }

  /** One list group holds its own key once per element and no other
      counted key. */
  lemma GroupCounts<T>(key: string, xs: seq<T>, show: T -> string, k: string)
    requires key == "event=" || key == "player=" || key == "team=" || key == "map="
    requires CountedKey(k)
    ensures CountKey(Fields(key, xs, show), k) == if k == key then |xs| else 0
  {
    if k == key {
      assert Clash(key, "startDate=") by { assert key[0] != "startDate="[0]; }
      CountKeyFields(key, "startDate=", xs, show);
    } else {
      assert Clash(key, k) by { assert key[0] != k[0]; }
      CountKeyFields(key, k, xs, show);
    }
  }

  /** The head holds the date key exactly when the range is sent, and none
      of the list keys. */
  lemma HeadCounts(d: ResultRB, k: string)
    requires CountedKey(k)
    ensures CountKey(ResultHeadFields(d), k) == if k == "startDate=" && HasDates(d) then 1 else 0
  {
    var h0 := "results?stars=" + NatToString(d.stars);
    var h1 := "matchType=" + FilterDisplay(d.matchFilter);
    assert h0[0] == 'r';
    NotPrefix(k, h0, 0);
    assert h1[0] == 'm' && h1[2] == 't';
    if k == "map=" {
      NotPrefix(k, h1, 2);
    } else {
      NotPrefix(k, h1, 0);
    }
    assert CountKey([h0], k) == 0 by {
      assert [h0][..0] == [];
    }
    assert CountKey([h0, h1], k) == 0 by {
      assert [h0, h1][..1] == [h0];
    }
    if HasDates(d) {
      var h2 := "startDate=" + d.from;
      var h3 := "endDate=" + d.to;
      assert h2[..10] == "startDate=";
      assert h3[0] == 'e' && h3[1] == 'n';
      if k == "event=" {
        NotPrefix(k, h2, 0);
        NotPrefix(k, h3, 1);
      } else if k != "startDate=" {
        NotPrefix(k, h2, 0);
        NotPrefix(k, h3, 0);
      } else {
        NotPrefix(k, h3, 0);
      }
      assert ResultHeadFields(d) == [h0, h1, h2, h3];
      assert [h0, h1, h2, h3][..3] == [h0, h1, h2];
      assert [h0, h1, h2][..2] == [h0, h1];
    } else {
      assert ResultHeadFields(d) == [h0, h1];
    }
  }

  /** Counting a key over the five parts of the fields. */
  lemma CountParts(a: seq<string>, b: seq<string>, c: seq<string>, e: seq<string>, f: seq<string>, k: string)
    ensures CountKey(a + b + c + e + f, k) == CountKey(a, k) + CountKey(b, k) + CountKey(c, k) + CountKey(e, k) + CountKey(f, k)
  {
    CountKeyAppend(a, b, k);
    CountKeyAppend(a + b, c, k);
    CountKeyAppend(a + b + c, e, k);
    CountKeyAppend(a + b + c + e, f, k);
  }

  lemma KeyCount(d: ResultRB, k: string)
    requires CountedKey(k)
    ensures CountKey(ResultFields(d), k) ==
      (if k == "startDate=" && HasDates(d) then 1 else 0)
      + (if k == "event=" then |d.events| else 0)
      + (if k == "player=" then |d.players| else 0)
      + (if k == "team=" then |d.teams| else 0)
      + (if k == "map=" then |d.maps| else 0)
  {
    ResultQueryJoin(d);
    CountParts(ResultHeadFields(d), Fields("event=", d.events, IdText), Fields("player=", d.players, IdText),
      Fields("team=", d.teams, IdText), Fields("map=", d.maps, MapDisplay), k);
    HeadCounts(d, k);
    GroupCounts("event=", d.events, IdText, k);
    GroupCounts("player=", d.players, IdText, k);
    GroupCounts("team=", d.teams, IdText, k);
    GroupCounts("map=", d.maps, MapDisplay, k);
  }

  /** Each list parameter occurs exactly as often as its list is long, and
      the date range occurs exactly when both ends are set. */
  lemma ResultKeyCounts(d: ResultRB)
    ensures CountKey(ResultFields(d), "event=") == |d.events|
    ensures CountKey(ResultFields(d), "player=") == |d.players|
    ensures CountKey(ResultFields(d), "team=") == |d.teams|
    ensures CountKey(ResultFields(d), "map=") == |d.maps|
    ensures CountKey(ResultFields(d), "startDate=") == (if HasDates(d) then 1 else 0)
  {
    KeyCount(d, "event=");
    KeyCount(d, "player=");
    KeyCount(d, "team=");
    KeyCount(d, "map=");
    KeyCount(d, "startDate=");
  }

  /** The default builder asks for every result: no stars, no filter. */
  lemma DefaultResultQuery()
    ensures ResultQueryString(DefaultResultRB()) == "results?stars=0&matchType=All"
  {
    var d := DefaultResultRB();
    assert NatToString(0) == "0";
    assert Params("&event=", d.events, IdText) == "";
    assert Params("&map=", d.maps, MapDisplay) == "";
  }

  /** The text of a date as the setters format it: no zero padding. */
  function DateText(year: U32, month: U32, day: U32): string {
    NatToString(year) + "-" + NatToString(month) + "-" + NatToString(day)
  }

  lemma DateTextIsDelimiterFree(year: U32, month: U32, day: U32)
    ensures '&' !in DateText(year, month, day)
    ensures '&' !in NatToString(year) + "-01-01" && '&' !in NatToString(year) + "-12-31"
  {
    NoDelimiterInNumber(year);
    NoDelimiterInNumber(month);
    NoDelimiterInNumber(day);
  }

  /** `RequestBuilder<Vec<MatchResult>, ResultRB>`: the builder holds the
      filter record and each setter replaces one part of it. */
  class ResultsBuilder {
    var data: ResultRB

    /** The record never holds a date with the query delimiter. */
    predicate Valid()
      reads this
    {
      DateFree(data)
    }

    /** `results()`: a builder holding the default filters. */
    constructor Results()
      ensures Valid() && data == DefaultResultRB()
    {
      data := DefaultResultRB();
    }

    /** `stars`. */
    method Stars(stars: U32)
      requires Valid()
      modifies this
      ensures Valid() && data == old(data).(stars := stars)
    {
      data := data.(stars := stars);
    }

    /** `year`: the whole calendar year, January 1st to December 31st. */
    method Year(year: U32)
      requires Valid()
      modifies this
      ensures Valid()
      ensures data == old(data).(from := NatToString(year) + "-01-01", to := NatToString(year) + "-12-31")
    {
      DateTextIsDelimiterFree(year, year, year);
      data := data.(from := NatToString(year) + "-01-01");
      data := data.(to := NatToString(year) + "-12-31");
    }

    /** `from`: the first day of the range. */
    method From(year: U32, month: U32, day: U32)
      requires Valid()
      modifies this
      ensures Valid() && data == old(data).(from := DateText(year, month, day))
    {
      DateTextIsDelimiterFree(year, month, day);
      data := data.(from := DateText(year, month, day));
    }

    /** `to`: the last day of the range. */
    method To(year: U32, month: U32, day: U32)
      requires Valid()
      modifies this
      ensures Valid() && data == old(data).(to := DateText(year, month, day))
    {
      DateTextIsDelimiterFree(year, month, day);
      data := data.(to := DateText(year, month, day));
    }

    /** `events`: replaces the event list. */
    method Events(eventIds: seq<U32>)
      requires Valid()
      modifies this
      ensures Valid() && data == old(data).(events := eventIds)
    {
      data := data.(events := eventIds);
    }

    /** `players`: replaces the player list. */
    method Players(playerIds: seq<U32>)
      requires Valid()
      modifies this
      ensures Valid() && data == old(data).(players := playerIds)
    {
      data := data.(players := playerIds);
    }

    /** `team`: the team list becomes this one team. */
    method Team(teamId: U32)
      requires Valid()
      modifies this
      ensures Valid() && data == old(data).(teams := [teamId])
    {
      data := data.(teams := [teamId]);
    }

    /** `teams`: replaces the team list. */
    method Teams(teamIds: seq<U32>)
      requires Valid()
      modifies this
      ensures Valid() && data == old(data).(teams := teamIds)
    {
      data := data.(teams := teamIds);
    }

    /** `map`: the map list becomes this one map. */
    method Map(m: Map)
      requires Valid()
      modifies this
      ensures Valid() && data == old(data).(maps := [m])
    {
      data := data.(maps := [m]);
    }

    /** `maps`: replaces the map list. */
    method Maps(ms: seq<Map>)
      requires Valid()
      modifies this
      ensures Valid() && data == old(data).(maps := ms)
    {
      data := data.(maps := ms);
    }

    /** `event_type`: replaces the event-type filter. */
    method EventType(filter: EventTypeFilter)
      requires Valid()
      modifies this
      ensures Valid() && data == old(data).(matchFilter := filter)
    {
      data := data.(matchFilter := filter);
    }
  }
}
