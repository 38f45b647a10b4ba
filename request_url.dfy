/**
 * The older URL-appending request builder (src/request.rs) and the
 * match-page request (src/request/match_page.rs). The builder owns a URL
 * that each of its methods extends in place.
 */
module RequestUrl {
  import opened Wrappers
  import opened Strings

  /** `Request<T>`: the URL a fetch will get (the phantom type is dropped). */
  datatype Request = Request(url: string)

  const UPCOMING_URL: string := "https://www.hltv.org/matches?"

  /** `RequestBuilder<UpcomingMatch>`. */
  class RequestBuilder {
    var url: string

    /** `upcoming()`: a builder for the upcoming-matches page. */
    constructor Upcoming()
      ensures url == UPCOMING_URL
    {
      url := UPCOMING_URL;
    }

    /** `top_tier`: appends the top-tier filter and nothing else. */
    method TopTier()
      modifies this
      ensures url == old(url) + "&predefinedFilter=top_tier"
    {
      url := url + "&predefinedFilter=top_tier";
    }

    /** `event`: appends one event parameter with the id in decimal. */
    method Event(id: U32)
      modifies this
      ensures url == old(url) + "&event=" + NatToString(id)
    {
      url := url + "&event=";
      url := url + NatToString(id);
    }

    /** `event_type`: appends the event type's query value; `kind` is the
        string the `EventType` conversion yields. */
    method EventType(kind: string)
      modifies this
      ensures url == old(url) + "&eventType=" + kind
    {
      url := url + "&eventType=";
      url := url + kind;
    }

    /** `build`: the request carries the URL exactly as built. */
    method Build() returns (r: Request)
      ensures r.url == url
    {
      r := Request(url);
    }
  }

  /** The chain `upcoming()`, `top_tier()`, `event(id)`, `build()`: the
      starting URL followed by the top-tier filter and the event parameter,
      for every id. */
  method UpcomingTopTierEvent(id: U32) returns (r: Request)
    ensures r.url == UPCOMING_URL + "&predefinedFilter=top_tier" + "&event=" + NatToString(id)
    ensures UPCOMING_URL <= r.url
  {
    var b := new RequestBuilder.Upcoming();
    b.TopTier();
    b.Event(id);
    r := b.Build();
  }

  // ---------------------------------------------------------------------
  // src/request/match_page.rs
  // ---------------------------------------------------------------------

  /** The '/'-separated pieces of a match-page URL. */
  function MatchUrlPieces(id: U32): seq<string> {
    ["https:", "", "www.hltv.org", "matches", NatToString(id), "xyz"]
  }

  /** `get_match`: the page of match `id`; any slug is accepted after the
      id, so the builder uses "xyz". The URL is the pieces above joined by
      '/', so the id is the piece at index 4. */
  function GetMatch(id: U32): (r: Request)
    ensures r.url == Join(MatchUrlPieces(id), '/')
    ensures |r.url| >= 4 && r.url[|r.url| - 4..] == "/xyz"
  {
    var url := "https://www.hltv.org/matches/" + NatToString(id) + "/xyz";
    MatchUrlJoin(NatToString(id));
    Request(url)
  }

  /** Six pieces joined by a separator. */
  lemma JoinSix(a: string, b: string, c: string, e: string, f: string, g: string, sep: char)
    ensures Join([a, b, c, e, f, g], sep) == a + [sep] + (b + [sep] + (c + [sep] + (e + [sep] + (f + [sep] + g))))
  {
    var p := [a, b, c, e, f, g];
    assert Join(p[5..], sep) == g;
    assert Join(p[4..], sep) == f + [sep] + g by {
      assert p[4..][1..] == p[5..];
    }
    assert Join(p[3..], sep) == e + [sep] + (f + [sep] + g) by {
      assert p[3..][1..] == p[4..];
    }
    assert Join(p[2..], sep) == c + [sep] + (e + [sep] + (f + [sep] + g)) by {
      assert p[2..][1..] == p[3..];
    }
    assert Join(p[1..], sep) == b + [sep] + (c + [sep] + (e + [sep] + (f + [sep] + g))) by {
      assert p[1..][1..] == p[2..];
    }
  }

  /** Regrouping four separated pieces in front of a tail. */
  lemma Regroup(a: string, b: string, c: string, e: string, x: string, sep: char)
    ensures a + [sep] + (b + [sep] + (c + [sep] + (e + [sep] + x))) == (a + [sep] + b + [sep] + c + [sep] + e + [sep]) + x
  {
  }

  /** The fixed head of a match-page URL, as its first four pieces. */
  lemma MatchUrlHead()
    ensures "https:" + ['/'] + "" + ['/'] + "www.hltv.org" + ['/'] + "matches" + ['/'] == "https://www.hltv.org/matches/"
  {
  }

  /** The match-page URL is its pieces joined by '/'. */
  lemma MatchUrlJoin(n: string)
    ensures "https://www.hltv.org/matches/" + n + "/xyz" == Join(["https:", "", "www.hltv.org", "matches", n, "xyz"], '/')
  {
    JoinSix("https:", "", "www.hltv.org", "matches", n, "xyz", '/');
    Regroup("https:", "", "www.hltv.org", "matches", n + ['/'] + "xyz", '/');
    MatchUrlHead();
    assert "/xyz" == ['/'] + "xyz";
    Reassociate("https://www.hltv.org/matches/", n, ['/'], "xyz");
  }

  lemma Reassociate(a: string, b: string, c: string, e: string)
    ensures a + b + (c + e) == a + (b + c + e)
  {
  }

  /** Splitting the URL at '/' gives back the pieces, and the piece at
      index 4 parses as the id. */
  lemma GetMatchId(id: U32)
    ensures Split(GetMatch(id).url, '/') == MatchUrlPieces(id)
    ensures ParseU32(Split(GetMatch(id).url, '/')[4]) == Some(id)
  {
    var pieces := MatchUrlPieces(id);
    forall i | 0 <= i < |pieces| ensures '/' !in pieces[i] {
      if i == 4 {
        assert !IsDigit('/');
      }
    }
    SplitJoin(pieces, '/');
    ParseU32OfNatToString(id);
  }

  /** Different matches have different URLs. */
  lemma GetMatchInjective(a: U32, b: U32)
    requires GetMatch(a) == GetMatch(b)
    ensures a == b
  {
    GetMatchId(a);
    GetMatchId(b);
  }
}
