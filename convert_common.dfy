/**
 * Rules the page converters (the files under src/converter) share: a record's id is
 * the third '/'-separated segment of a link, and a conversion loop over
 * containers stops at the first container that fails.
 */
module Convert {
  import opened Wrappers
  import opened Strings
  import opened Dom

  /** `href.split('/').nth(2)`, then `parse::<u32>`: a link with fewer than
      three segments is a `ParseError`, a third segment that is not a `u32`
      is a `ConversionError` carrying the converter's own message. */
  function SegmentId(href: string, msg: string): (r: Result<U32>)
    ensures r == Err(ParseError) <==> |Split(href, '/')| < 3
    ensures r == Err(ConversionError(msg)) <==> |Split(href, '/')| >= 3 && ParseU32(Split(href, '/')[2]).None?
    ensures r.Ok? <==> |Split(href, '/')| >= 3 && ParseU32(Split(href, '/')[2]).Some?
    ensures r.Ok? ==> ParseU32(Split(href, '/')[2]) == Some(r.value)
  {
    var segment :- Nth(Split(href, '/'), 2).OkOr(ParseError);
    match ParseU32(segment)
    case Some(x) => Ok(x)
    case None => Err(ConversionError(msg))
  }

  /** A site link "/<section>/<id>/<slug>" yields its id, whatever the slug. */
  lemma SegmentIdOfLink(section: string, id: U32, slug: string, msg: string)
    requires '/' !in section
    ensures SegmentId("/" + section + "/" + NatToString(id) + "/" + slug, msg) == Ok(id)
  {
    var n := NatToString(id);
    assert '/' !in n by {
      assert !IsDigit('/');
    }
    var href := "/" + section + "/" + n + "/" + slug;
    assert href == [] + ['/'] + (section + ['/'] + (n + ['/'] + slug));
    SplitAtSeparator([], section + ['/'] + (n + ['/'] + slug), '/');
    SplitAtSeparator(section, n + ['/'] + slug, '/');
    SplitAtSeparator(n, slug, '/');
    SplitNoSeparator(section, '/');
    SplitNoSeparator(n, '/');
    assert Split(href, '/') == [""] + ([section] + ([n] + Split(slug, '/')));
    ParseU32OfNatToString(id);
  }

  /** A relative link "matches/<id>" has too few segments: `ParseError`. */
  lemma SegmentIdOfShortLink(id: U32, msg: string)
    ensures SegmentId("matches/" + NatToString(id), msg) == Err(ParseError)
  {
    var n := NatToString(id);
    assert '/' !in n by {
      assert !IsDigit('/');
    }
    assert "matches/" + n == "matches" + ['/'] + n;
    SplitAtSeparator("matches", n, '/');
    SplitNoSeparator("matches", '/');
    SplitNoSeparator(n, '/');
  }

  /** The id of the first node below `rn` carrying `cls`, read from its
      `href` (every converter's `parse_id`); a missing node or attribute is
      a `ParseError`. */
  function HrefId(rn: RichNode, cls: string, msg: string): (r: Result<U32>)
    ensures GetAttrStr(Find(rn, cls), "href").None? ==> r == Err(ParseError)
    ensures GetAttrStr(Find(rn, cls), "href").Some? ==> r == SegmentId(GetAttrStr(Find(rn, cls), "href").value, msg)
  {
    var href :- GetAttrStr(Find(rn, cls), "href").OkOr(ParseError);
    SegmentId(href, msg)
  }

  /** A node `find` returns is present in the same document. */
  lemma FoundIsPresent(rn: RichNode, cls: string)
    ensures Find(rn, cls).d == rn.d
    ensures Find(rn, cls).n.Some? ==> GetNode(Find(rn, cls)).Some?
  {
    if rn.n.Some? {
      FindFirstMatch(rn, cls);
    }
  }

  const STARS_MESSAGE: string := "no stars attribute in div.upcomingMatch"

  /** `parse_stars` (in both match converters): the container tag's `stars` attribute. A missing
      attribute is a `ConversionError`, one that is not a `u32` a
      `ParseError`. */
  function ParseStars(t: Node): (r: Result<U32>)
    requires t.Tag?
    ensures r == Err(ConversionError(STARS_MESSAGE)) <==> TagAttrStr(t, "stars").None?
    ensures r == Err(ParseError) <==> TagAttrStr(t, "stars").Some? && ParseU32(TagAttrStr(t, "stars").value).None?
    ensures r.Ok? ==> ParseU32(TagAttrStr(t, "stars").value) == Some(r.value)
  {
    var stars :- TagGetAttr(t, "stars", ParseU32);
    stars.OkOr(ConversionError(STARS_MESSAGE))
  }

  /** The containers a converter walks: `query_selector("name.cls")`,
      each of them a tag. */
  function Containers(d: Document, name: string, cls: string): (cs: seq<Handle>)
    ensures forall c | c in cs :: IsTagAt(d, c)
    ensures cs == QuerySelector(d, name, cls)
  {
    QuerySelectorTags(d, name, cls);
    QuerySelector(d, name, cls)
  }

  // ---------------------------------------------------------------------
  // Fail-fast conversion of a sequence of containers
  // ---------------------------------------------------------------------

  /** What a conversion loop returns: the converted records in order, or
      the error of the first element that fails. */
  function MapAll<A, B>(f: A --> Result<B>, xs: seq<A>): Result<seq<B>>
    requires forall i | 0 <= i < |xs| :: f.requires(xs[i])
    decreases |xs|
  {
    if xs == [] then Ok([])
    else
      var init :- MapAll(f, xs[..|xs| - 1]);
      var last :- f(xs[|xs| - 1]);
      Ok(init + [last])
  }

  /** Success means every element converted, one record per element, in
      order. */
  lemma {:induction false} MapAllOk<A, B>(f: A --> Result<B>, xs: seq<A>)
    requires forall i | 0 <= i < |xs| :: f.requires(xs[i])
    ensures MapAll(f, xs).Ok? <==> forall i | 0 <= i < |xs| :: f(xs[i]).Ok?
    ensures MapAll(f, xs).Ok? ==>
      |MapAll(f, xs).value| == |xs| &&
      forall i | 0 <= i < |xs| :: f(xs[i]) == Ok(MapAll(f, xs).value[i])
    decreases |xs|
  {
    if xs != [] {
      var n := |xs| - 1;
      var init := xs[..n];
      MapAllOk(f, init);
      assert forall i | 0 <= i < n :: init[i] == xs[i];
    }
  }

  /** Failure carries the error of the first element that fails; every
      element before it converted. */
  lemma {:induction false} MapAllErr<A, B>(f: A --> Result<B>, xs: seq<A>)
    requires forall i | 0 <= i < |xs| :: f.requires(xs[i])
    requires MapAll(f, xs).Err?
    ensures exists k | 0 <= k < |xs| ::
      && f(xs[k]) == Err(MapAll(f, xs).error)
      && forall i | 0 <= i < k :: f(xs[i]).Ok?
    decreases |xs|
  {
    var n := |xs| - 1;
    var init := xs[..n];
    assert forall i | 0 <= i < n :: init[i] == xs[i];
    if MapAll(f, init).Err? {
      MapAllErr(f, init);
      var k :| 0 <= k < |init| && f(init[k]) == Err(MapAll(f, init).error) && forall i | 0 <= i < k :: f(init[i]).Ok?;
      assert f(xs[k]) == Err(MapAll(f, xs).error);
    } else {
      MapAllOk(f, init);
      assert f(xs[n]) == Err(MapAll(f, xs).error);
    }
  }

  /** Once a prefix fails, the whole sequence fails with the same error. */
  lemma {:induction false} MapAllPrefixErr<A, B>(f: A --> Result<B>, xs: seq<A>, k: nat)
    requires k <= |xs|
    requires forall i | 0 <= i < |xs| :: f.requires(xs[i])
    requires MapAll(f, xs[..k]).Err?
    ensures MapAll(f, xs) == MapAll(f, xs[..k])
    decreases |xs| - k
  {
    if k < |xs| {
      assert xs[..k + 1][..k] == xs[..k];
      MapAllPrefixErr(f, xs, k + 1);
    } else {
      assert xs[..k] == xs;
    }
  }

  /** One more element that converts extends a successful prefix. */
  lemma MapAllSnoc<A, B>(f: A --> Result<B>, xs: seq<A>, k: nat)
    requires k < |xs|
    requires forall i | 0 <= i < |xs| :: f.requires(xs[i])
    ensures MapAll(f, xs[..k + 1]) ==
      match MapAll(f, xs[..k])
      case Err(e) => Err(e)
      case Ok(init) => (match f(xs[k]) case Err(e) => Err(e) case Ok(x) => Ok(init + [x]))
  {
    assert xs[..k + 1][..k] == xs[..k];
  }

  /** The conversion loop `for c in containers { result.push(parse(c)?) }`:
      one record pushed per element, returning at the first error. */
  method ConvertAll<A, B>(f: A --> Result<B>, xs: seq<A>) returns (r: Result<seq<B>>)
    requires forall i | 0 <= i < |xs| :: f.requires(xs[i])
    ensures r == MapAll(f, xs)
  {
    var result: seq<B> := [];
    for i := 0 to |xs|
      invariant MapAll(f, xs[..i]) == Ok(result)
    {
      MapAllSnoc(f, xs, i);
      var x := f(xs[i]);
      if x.Err? {
        MapAllPrefixErr(f, xs, i + 1);
        return Err(x.error);
      }
      result := result + [x.value];
    }
    assert xs[..|xs|] == xs;
    return Ok(result);
  }

  /** The same loop pushing into a vector the caller owns
      (`for x in xs { r.push(parse(x)?) }` with `r: &mut Vec<B>`): the
      entries already in `r` stay, each element that converts is appended in
      order, and at the first error the loop stops with the records before
      it already appended. */
  method AppendAll<A, B>(f: A --> Result<B>, xs: seq<A>, r: seq<B>) returns (out: seq<B>, res: Result<()>)
    requires forall i | 0 <= i < |xs| :: f.requires(xs[i])
    ensures |r| <= |out| && out[..|r|] == r
    ensures res.Ok? <==> MapAll(f, xs).Ok?
    ensures res.Ok? ==> MapAll(f, xs) == Ok(out[|r|..])
    ensures res.Err? ==>
      && MapAll(f, xs) == Err(res.error)
      && |out| - |r| < |xs|
      && MapAll(f, xs[..|out| - |r|]) == Ok(out[|r|..])
      && f(xs[|out| - |r|]) == Err(res.error)
  {
    out := r;
    assert xs[..0] == [] && out[|r|..] == [];
    for i := 0 to |xs|
      invariant |out| == |r| + i && out[..|r|] == r
      invariant MapAll(f, xs[..i]) == Ok(out[|r|..])
    {
      MapAllSnoc(f, xs, i);
      var x := f(xs[i]);
      if x.Err? {
        MapAllPrefixErr(f, xs, i + 1);
        return out, Err(x.error);
      }
      ghost var done := out[|r|..];
      out := out + [x.value];
      assert out[|r|..] == done + [x.value];
    }
    assert xs[..|xs|] == xs;
    return out, Ok(());
  }
}
