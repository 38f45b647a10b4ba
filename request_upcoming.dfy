/**
 * The request builder for the upcoming-matches page
 * (src/request/upcoming.rs): the filter record `UpcomingRB`, its query
 * string, and the builder whose setters update the record in place.
 */
module UpcomingRequest {
  import opened Strings
  import opened Query
  import opened RequestFilter

  /** `UpcomingRB`: the filters of an upcoming-matches query. */
  datatype UpcomingRB = UpcomingRB(topTier: bool, events: seq<U32>, eventFilter: EventTypeFilter)

  /** The derived `UpcomingRB::default()`. */
  function DefaultUpcomingRB(): UpcomingRB {
    UpcomingRB(false, [], FilterDefault())
  }

  const TOP_TIER_QUERY: string := "matches?predefinedFilter=top_tier"

  /** The query `From<UpcomingRB> for String` produces. */
  function UpcomingQueryString(d: UpcomingRB): string {
    if d.topTier then TOP_TIER_QUERY
    else "matches?" + ("&eventType=" + FilterDisplay(d.eventFilter)) + Params("&event=", d.events, IdText)
  }

  /** `impl From<UpcomingRB> for String`: the top-tier query alone when that
      flag is set, otherwise the event-type parameter and one parameter per
      event, in list order. */
  method UpcomingQuery(d: UpcomingRB) returns (result: string)
    ensures result == UpcomingQueryString(d)
  {
    if d.topTier {
      return "matches?predefinedFilter=top_tier";
    }
    result := "matches?";
    result := result + ("&eventType=" + FilterDisplay(d.eventFilter));
    result := AppendParams(result, "&event=", d.events, IdText);
  }

  /** The query's '&'-separated fields: an empty field follows "matches?"
      because every parameter, the first included, starts with '&'. */
  function UpcomingFields(d: UpcomingRB): seq<string> {
    if d.topTier then [TOP_TIER_QUERY]
    else ["matches?", "eventType=" + FilterDisplay(d.eventFilter)] + Fields("event=", d.events, IdText)
  }

  /** The query is its fields joined by '&', and splitting it at '&' gives
      the fields back. */
  lemma UpcomingQuerySplit(d: UpcomingRB)
    ensures Join(UpcomingFields(d), '&') == UpcomingQueryString(d)
    ensures Split(UpcomingQueryString(d), '&') == UpcomingFields(d)
  {
    if d.topTier {
      assert Join([TOP_TIER_QUERY], '&') == TOP_TIER_QUERY;
      assert DelimiterFree([TOP_TIER_QUERY]);
    } else {
      var f := FilterDisplay(d.eventFilter);
      var head := ["matches?", "eventType=" + f];
      assert Join(head, '&') == "matches?" + ("&eventType=" + f) by {
        assert head[1..] == ["eventType=" + f];
        assert ['&'] + ("eventType=" + f) == "&eventType=" + f;
      }
      JoinFields(head, "event=", d.events, IdText);
      assert "&" + "event=" == "&event=";
      FilterDisplayInjective(d.eventFilter, d.eventFilter);
      assert DelimiterFree(head);
      IdFieldsDelimiterFree("event=", d.events);
      DelimiterFreeAppend(head, Fields("event=", d.events, IdText));
    }
    SplitJoin(UpcomingFields(d), '&');
  }

  /** Without the top-tier flag each event occurs once per element of the
      list; with it, no event parameter is sent at all. */
  lemma UpcomingEventCount(d: UpcomingRB)
    ensures CountKey(UpcomingFields(d), "event=") == if d.topTier then 0 else |d.events|
    ensures CountKey(UpcomingFields(d), "eventType=") == if d.topTier then 0 else 1
  {
    var e := Fields("event=", d.events, IdText);
    if d.topTier {
      NotPrefix("event=", TOP_TIER_QUERY, 0);
      NotPrefix("eventType=", TOP_TIER_QUERY, 0);
      assert [TOP_TIER_QUERY][..0] == [];
    } else {
      var f := FilterDisplay(d.eventFilter);
      var head := ["matches?", "eventType=" + f];
      NotPrefix("event=", "matches?", 0);
      NotPrefix("eventType=", "matches?", 0);
      assert ("eventType=" + f)[5] == 'T';
      NotPrefix("event=", "eventType=" + f, 5);
      assert ("eventType=" + f)[..10] == "eventType=";
      assert CountKey(["matches?"], "event=") == 0 && CountKey(["matches?"], "eventType=") == 0 by {
        assert ["matches?"][..0] == [];
      }
      assert head[..1] == ["matches?"];
      CountKeyAppend(head, e, "event=");
      CountKeyAppend(head, e, "eventType=");
      assert Clash("event=", "eventType=") by { assert "event="[5] != "eventType="[5]; }
      assert Clash("eventType=", "event=") by { assert "eventType="[5] != "event="[5]; }
      CountKeyFields("event=", "eventType=", d.events, IdText);
    }
  }

  /** The default builder asks for every upcoming match of every event
      type. */
  lemma DefaultUpcomingQuery()
    ensures UpcomingQueryString(DefaultUpcomingRB()) == "matches?&eventType=All"
  {
  }

  /** `RequestBuilder<UpcomingMatch, UpcomingRB>`: the builder holds the
      filter record and each setter replaces one part of it. */
  class UpcomingBuilder {
    var data: UpcomingRB

    /** `upcoming()`: a builder holding the default filters. */
    constructor Upcoming()
      ensures data == DefaultUpcomingRB()
    {
      data := DefaultUpcomingRB();
    }

    /** `top_tier`: sets the flag, after which the query no longer depends
        on the other filters. */
    method TopTier()
      modifies this
      ensures data == old(data).(topTier := true)
      ensures UpcomingQueryString(data) == TOP_TIER_QUERY
    {
      data := data.(topTier := true);
    }

    /** `events`: replaces the event list. */
    method Events(eventIds: seq<U32>)
      modifies this
      ensures data == old(data).(events := eventIds)
    {
      data := data.(events := eventIds);
    }

    /** `event_type`: replaces the event-type filter. */
    method EventType(filter: EventTypeFilter)
      modifies this
      ensures data == old(data).(eventFilter := filter)
    {
      data := data.(eventFilter := filter);
    }
  }

  /** Once the top-tier flag is set, no other filter changes the query. */
  lemma TopTierOverrides(d: UpcomingRB, events: seq<U32>, filter: EventTypeFilter)
    requires d.topTier
    ensures UpcomingQueryString(d.(events := events, eventFilter := filter)) == UpcomingQueryString(d)
    ensures UpcomingFields(d) == [TOP_TIER_QUERY]
  {
  }
}
