/**
 * The subtree query engine and the fluent node wrapper (src/tl_extensions.rs).
 *
 * The HTML parser itself is outside the model: a parsed document is a value
 * of `Document`, whose nodes are raw text or tags. A node handle is the path
 * from the document's list of top-level nodes to the node (first the index
 * of the top-level node, then one child index per level), so two handles
 * compare in document order lexicographically.
 *
 * `Select` is the reference definition every search is proved against: the
 * handles of the nodes of a subtree that satisfy a predicate, in pre-order.
 */
module Dom {
  import opened Wrappers
  import opened Strings

  /** A parsed node: raw text, or a tag with its name, its attributes (an
      attribute written without a value maps to `None`) and its children.
      An HTML comment is not a tag, has no children and adds nothing to
      `inner_text`, so it behaves as `Text("")` here. */
  datatype Node =
    | Text(text: string)
    | Tag(name: string, attrs: map<string, Option<string>>, children: seq<Node>)

  /** A parsed document (`tl::VDom`): its top-level nodes. */
  datatype Document = Document(roots: seq<Node>)

  /** A node handle: top-level index, then child indices. */
  type Handle = seq<nat>

  /** The node reached from `n` by following the child indices of `path`. */
  function Descend(n: Node, path: seq<nat>): Option<Node>
    decreases |path|
  {
    if path == [] then Some(n)
    else if n.Tag? && path[0] < |n.children| then Descend(n.children[path[0]], path[1..])
    else None
  }

  /** `NodeHandle::get`: the node a handle refers to, if any. */
  function Get(d: Document, h: Handle): Option<Node> {
    if |h| > 0 && h[0] < |d.roots| then Descend(d.roots[h[0]], h[1..]) else None
  }

  predicate IsTagAt(d: Document, h: Handle) {
    Get(d, h).Some? && Get(d, h).value.Tag?
  }

  lemma {:induction false} DescendAppend(n: Node, a: seq<nat>, b: seq<nat>)
    requires Descend(n, a).Some?
    ensures Descend(n, a + b) == Descend(Descend(n, a).value, b)
    decreases |a|
  {
    if a != [] {
      assert (a + b)[0] == a[0];
      assert (a + b)[1..] == a[1..] + b;
      assert Descend(n, a) == Descend(n.children[a[0]], a[1..]);
      assert Descend(n, a + b) == Descend(n.children[a[0]], a[1..] + b);
      DescendAppend(n.children[a[0]], a[1..], b);
    } else {
      assert a + b == b;
    }
  }

  /** Following a path below a handle is following it below its node. */
  lemma GetAppend(d: Document, h: Handle, rel: seq<nat>)
    requires Get(d, h).Some?
    ensures Get(d, h + rel) == Descend(Get(d, h).value, rel)
  {
    assert (h + rel)[0] == h[0];
    assert (h + rel)[1..] == h[1..] + rel;
    DescendAppend(d.roots[h[0]], h[1..], rel);
  }

  // ---------------------------------------------------------------------
  // Class tokens and the predicates the searches use
  // ---------------------------------------------------------------------

  /** The whitespace-separated tokens of the `class` attribute. */
  function ClassTokens(attrs: map<string, Option<string>>): seq<string> {
    if "class" in attrs && attrs["class"].Some? then Words(attrs["class"].value) else []
  }

  /** `Attributes::is_class_member`. */
  predicate IsClassMember(attrs: map<string, Option<string>>, cls: string) {
    cls in ClassTokens(attrs)
  }

  /** A tag whose class list holds `cls`. */
  predicate HasClassToken(n: Node, cls: string) {
    n.Tag? && IsClassMember(n.attrs, cls)
  }

  /** `RichNode::compare_class`: the predicate `find` searches with. It
      holds exactly for the tags whose class list holds `cls`; a text node
      never satisfies it. */
  function CompareClass(cls: string): (f: Node -> bool)
    ensures forall n :: f(n) <==> n.Tag? && cls in ClassTokens(n.attrs)
  {
    (n: Node) => HasClassToken(n, cls)
  }

  /** The `"tag.class"` selectors the converters pass to `query_selector`. */
  function TagAndClass(name: string, cls: string): Node -> bool {
    (n: Node) => n.Tag? && n.name == name && IsClassMember(n.attrs, cls)
  }

  // ---------------------------------------------------------------------
  // The reference definition: pre-order filter
  // ---------------------------------------------------------------------

  /** The handles of the nodes of the subtree `n` (whose handle is `at`)
      that satisfy `p`, in pre-order: `n` first, then each child's subtree
      in turn. */
  function Select(n: Node, at: Handle, p: Node -> bool): seq<Handle>
    decreases n
  {
    (if p(n) then [at] else []) + (if n.Tag? then SelectForest(n.children, at, p) else [])
  }

  /** `Select` over the children `cs` of the node at `at`, left to right. */
  function SelectForest(cs: seq<Node>, at: Handle, p: Node -> bool): seq<Handle>
    decreases cs
  {
    if cs == [] then []
    else SelectForest(cs[..|cs| - 1], at, p) + Select(cs[|cs| - 1], at + [|cs| - 1], p)
  }

  lemma SelectUnfold(n: Node, at: Handle, p: Node -> bool)
    requires n.Tag?
    ensures Select(n, at, p) == (if p(n) then [at] else []) + SelectForest(n.children, at, p)
  {
  }

  /** Searching one more child extends the search of the children before it. */
  lemma SelectForestSnoc(cs: seq<Node>, i: nat, at: Handle, p: Node -> bool)
    requires i < |cs|
    ensures SelectForest(cs[..i + 1], at, p) == SelectForest(cs[..i], at, p) + Select(cs[i], at + [i], p)
  {
    assert cs[..i + 1][..i] == cs[..i];
  }

  function FirstOf(hs: seq<Handle>): Option<Handle> {
    if hs == [] then None else Some(hs[0])
  }

  /** Document order: `a` is an ancestor of `b`, or `a` lies in an earlier
      sibling subtree. */
  predicate Precedes(a: Handle, b: Handle) {
    (|a| < |b| && a == b[..|a|])
    || exists k | 0 <= k < |a| && k < |b| :: a[..k] == b[..k] && a[k] < b[k]
  }

  predicate InDocumentOrder(hs: seq<Handle>) {
    forall i, j | 0 <= i < j < |hs| :: Precedes(hs[i], hs[j])
  }

  /** Every handle `Select` yields lies in the subtree and names a node
      satisfying the predicate. */
  lemma {:induction false} SelectSound(n: Node, at: Handle, p: Node -> bool, h: Handle)
    requires h in Select(n, at, p)
    ensures |at| <= |h| && h[..|at|] == at
    ensures Descend(n, h[|at|..]).Some? && p(Descend(n, h[|at|..]).value)
    decreases n
  {
    if h == at && p(n) {
      assert h[|at|..] == [];
    } else {
      assert n.Tag? && h in SelectForest(n.children, at, p);
      SelectForestSound(n.children, at, p, h);
      var path := h[|at|..];
      assert path[0] == h[|at|] && path[1..] == h[|at| + 1..];
    }
  }

  lemma {:induction false} SelectForestSound(cs: seq<Node>, at: Handle, p: Node -> bool, h: Handle)
    requires h in SelectForest(cs, at, p)
    ensures |at| < |h| && h[..|at|] == at && h[|at|] < |cs|
    ensures Descend(cs[h[|at|]], h[|at| + 1..]).Some? && p(Descend(cs[h[|at|]], h[|at| + 1..]).value)
    decreases cs
  {
    var last := |cs| - 1;
    if h in SelectForest(cs[..last], at, p) {
      SelectForestSound(cs[..last], at, p, h);
    } else {
      SelectSound(cs[last], at + [last], p, h);
      assert h[..|at| + 1] == at + [last];
      assert h[..|at|] == h[..|at| + 1][..|at|];
      assert h[|at| + 1..] == h[|at + [last]|..];
    }
  }

  /** Every node of the subtree that satisfies the predicate is found. */
  lemma {:induction false} SelectComplete(n: Node, at: Handle, p: Node -> bool, rel: seq<nat>)
    requires Descend(n, rel).Some? && p(Descend(n, rel).value)
    ensures at + rel in Select(n, at, p)
    decreases n
  {
    if rel == [] {
      assert at + rel == at;
    } else {
      SelectForestComplete(n.children, at, p, rel[0], rel[1..]);
      assert at + [rel[0]] + rel[1..] == at + rel;
    }
  }

  lemma {:induction false} SelectForestComplete(cs: seq<Node>, at: Handle, p: Node -> bool, j: nat, rel: seq<nat>)
    requires j < |cs|
    requires Descend(cs[j], rel).Some? && p(Descend(cs[j], rel).value)
    ensures at + [j] + rel in SelectForest(cs, at, p)
    decreases cs
  {
    var last := |cs| - 1;
    if j == last {
      SelectComplete(cs[last], at + [last], p, rel);
    } else {
      assert cs[..last][j] == cs[j];
      SelectForestComplete(cs[..last], at, p, j, rel);
    }
  }

  /** The searches of the first `k` children come first in the search of all. */
  lemma {:induction false} SelectForestPrefix(cs: seq<Node>, k: nat, at: Handle, p: Node -> bool)
    requires k <= |cs|
    ensures SelectForest(cs[..k], at, p) <= SelectForest(cs, at, p)
    decreases |cs| - k
  {
    if k < |cs| {
      var last := |cs| - 1;
      assert cs[..last][..k] == cs[..k];
      SelectForestPrefix(cs[..last], k, at, p);
    } else {
      assert cs[..k] == cs;
    }
  }

  lemma ConcatInDocumentOrder(a: seq<Handle>, b: seq<Handle>)
    requires InDocumentOrder(a) && InDocumentOrder(b)
    requires forall x, y | x in a && y in b :: Precedes(x, y)
    ensures InDocumentOrder(a + b)
  {
    var ab := a + b;
    forall i, j | 0 <= i < j < |ab| ensures Precedes(ab[i], ab[j]) {
      if j < |a| {
        assert ab[i] == a[i] && ab[j] == a[j];
      } else if i >= |a| {
        assert ab[i] == b[i - |a|] && ab[j] == b[j - |a|];
      } else {
        assert ab[i] in a && ab[j] in b;
      }
    }
  }

  /** `Select` lists its handles in strictly increasing document order,
      hence without repetition. */
  lemma {:induction false} SelectInDocumentOrder(n: Node, at: Handle, p: Node -> bool)
    ensures InDocumentOrder(Select(n, at, p))
    decreases n
  {
    var root: seq<Handle> := if p(n) then [at] else [];
    var rest: seq<Handle> := if n.Tag? then SelectForest(n.children, at, p) else [];
    if n.Tag? {
      SelectForestInDocumentOrder(n.children, at, p);
      forall x, y | x in root && y in rest ensures Precedes(x, y) {
        SelectForestSound(n.children, at, p, y);
      }
    }
    ConcatInDocumentOrder(root, rest);
  }

  lemma {:induction false} SelectForestInDocumentOrder(cs: seq<Node>, at: Handle, p: Node -> bool)
    ensures InDocumentOrder(SelectForest(cs, at, p))
    decreases cs
  {
    if cs != [] {
      var last := |cs| - 1;
      var left := SelectForest(cs[..last], at, p);
      var right := Select(cs[last], at + [last], p);
      SelectForestInDocumentOrder(cs[..last], at, p);
      SelectInDocumentOrder(cs[last], at + [last], p);
      forall x, y | x in left && y in right ensures Precedes(x, y) {
        SelectForestSound(cs[..last], at, p, x);
        SelectSound(cs[last], at + [last], p, y);
        assert y[..|at| + 1] == at + [last];
        assert y[..|at|] == y[..|at| + 1][..|at|];
        assert x[..|at|] == y[..|at|] && x[|at|] < y[|at|];
      }
      ConcatInDocumentOrder(left, right);
    }
  }

  // ---------------------------------------------------------------------
  // The searches of src/tl_extensions.rs
  // ---------------------------------------------------------------------

  /** `dfs`: appends to `result` every tag of the subtree `n` (handle `at`)
      that carries the class, in document order; a text node adds nothing. */
  method Dfs(n: Node, at: Handle, cls: string, result: seq<Handle>) returns (out: seq<Handle>)
    ensures out == result + Select(n, at, CompareClass(cls))
    decreases n, 1
  {
    if !n.Tag? {
      return result;
    }
    out := result;
    if IsClassMember(n.attrs, cls) {
      out := out + [at];
    }
    out := DfsChildren(n, at, cls, out);
  }

  /** The loop of `dfs` over the children of the tag `n`. */
  method DfsChildren(n: Node, at: Handle, cls: string, result: seq<Handle>) returns (out: seq<Handle>)
    requires n.Tag?
    ensures out == result + SelectForest(n.children, at, CompareClass(cls))
    decreases n, 0
  {
    var cs := n.children;
    out := result;
    var i: nat := 0;
    while i < |cs|
      invariant i <= |cs|
      invariant out == result + SelectForest(cs[..i], at, CompareClass(cls))
    {
      out := Dfs(cs[i], at + [i], cls, out);
      SelectForestSnoc(cs, i, at, CompareClass(cls));
      i := i + 1;
    }
    assert cs[..i] == cs;
  }

  /** `dfs_first`: the first tag of the subtree that carries the class,
      the root tested first, exactly the head of what `dfs` collects. */
  method DfsFirst(n: Node, at: Handle, cls: string) returns (r: Option<Handle>)
    ensures r == FirstOf(Select(n, at, CompareClass(cls)))
    decreases n
  {
    if !n.Tag? {
      return None;
    }
    if IsClassMember(n.attrs, cls) {
      return Some(at);
    }
    var i := 0;
    while i < |n.children|
      invariant 0 <= i <= |n.children|
      invariant SelectForest(n.children[..i], at, CompareClass(cls)) == []
    {
      var x := DfsFirst(n.children[i], at + [i], cls);
      assert n.children[..i + 1][..i] == n.children[..i];
      if x.Some? {
        SelectForestPrefix(n.children, i + 1, at, CompareClass(cls));
        return x;
      }
      i := i + 1;
    }
    assert n.children[..i] == n.children;
    return None;
  }

  /** `dfs_first_where`: the first node of the subtree, the root tested
      first, that satisfies `f` (text nodes are tested too). */
  method DfsFirstWhere(n: Node, at: Handle, f: Node -> bool) returns (r: Option<Handle>)
    ensures r == FirstOf(Select(n, at, f))
    decreases n
  {
    if f(n) {
      return Some(at);
    }
    if !n.Tag? {
      return None;
    }
    var i := 0;
    while i < |n.children|
      invariant 0 <= i <= |n.children|
      invariant SelectForest(n.children[..i], at, f) == []
    {
      var x := DfsFirstWhere(n.children[i], at + [i], f);
      assert n.children[..i + 1][..i] == n.children[..i];
      if x.Some? {
        SelectForestPrefix(n.children, i + 1, at, f);
        return x;
      }
      i := i + 1;
    }
    assert n.children[..i] == n.children;
    return None;
  }

  /** The handles of the tags under `h` carrying `cls`, in document order
      (what `select_nodes` returns). */
  function ClassNodes(d: Document, h: Handle, cls: string): seq<Handle> {
    match Get(d, h)
    case None => []
    case Some(n) => Select(n, h, CompareClass(cls))
  }

  /** `VDom::select_nodes`. */
  method SelectNodes(d: Document, h: Handle, cls: string) returns (hs: seq<Handle>)
    ensures hs == ClassNodes(d, h, cls)
  {
    var n := Get(d, h);
    if n.None? {
      return [];
    }
    hs := Dfs(n.value, h, cls, []);
  }

  /** `VDom::select_first`: `Some` exactly when `select_nodes` finds
      something, and then its first element. */
  method SelectFirst(d: Document, h: Handle, cls: string) returns (r: Option<Handle>)
    ensures r == FirstOf(ClassNodes(d, h, cls))
  {
    var n := Get(d, h);
    if n.None? {
      return None;
    }
    r := DfsFirst(n.value, h, cls);
  }

  /** `h'` is found under `h` exactly when it lies in the subtree of `h` and
      names a tag carrying the class; everything found is in document order. */
  lemma ClassNodesExact(d: Document, h: Handle, cls: string, h': Handle)
    ensures h' in ClassNodes(d, h, cls) <==>
      Get(d, h).Some? && |h| <= |h'| && h'[..|h|] == h && Get(d, h').Some? && HasClassToken(Get(d, h').value, cls)
    ensures InDocumentOrder(ClassNodes(d, h, cls))
  {
    if Get(d, h).Some? {
      var n := Get(d, h).value;
      SelectInDocumentOrder(n, h, CompareClass(cls));
      if h' in ClassNodes(d, h, cls) {
        SelectSound(n, h, CompareClass(cls), h');
        GetAppend(d, h, h'[|h|..]);
        assert h + h'[|h|..] == h';
      }
      if |h| <= |h'| && h'[..|h|] == h && Get(d, h').Some? && HasClassToken(Get(d, h').value, cls) {
        var rel := h'[|h|..];
        assert h + rel == h';
        GetAppend(d, h, rel);
        SelectComplete(n, h, CompareClass(cls), rel);
      }
    }
  }

  /** `query_selector("name.cls")` over the whole document: every tag with
      that name and class, in document order. */
  function QuerySelector(d: Document, name: string, cls: string): seq<Handle> {
    SelectForest(d.roots, [], TagAndClass(name, cls))
  }

  /** What `query_selector` yields is exactly the tags of the document with
      that name and class, each a valid tag handle, in document order. */
  lemma QuerySelectorExact(d: Document, name: string, cls: string, h: Handle)
    ensures h in QuerySelector(d, name, cls) <==>
      Get(d, h).Some? && Get(d, h).value.Tag? && Get(d, h).value.name == name && IsClassMember(Get(d, h).value.attrs, cls)
    ensures InDocumentOrder(QuerySelector(d, name, cls))
  {
    var p := TagAndClass(name, cls);
    SelectForestInDocumentOrder(d.roots, [], p);
    if h in QuerySelector(d, name, cls) {
      SelectForestSound(d.roots, [], p, h);
      assert [] + [h[0]] + h[1..] == h;
    }
    if Get(d, h).Some? && p(Get(d, h).value) {
      SelectForestComplete(d.roots, [], p, h[0], h[1..]);
      assert [] + [h[0]] + h[1..] == h;
    }
  }

  /** Every container `query_selector` yields is a tag. */
  lemma QuerySelectorTags(d: Document, name: string, cls: string)
    ensures forall h | h in QuerySelector(d, name, cls) :: IsTagAt(d, h)
  {
    forall h | h in QuerySelector(d, name, cls) ensures IsTagAt(d, h) {
      QuerySelectorExact(d, name, cls, h);
    }
  }

  // ---------------------------------------------------------------------
  // Attribute and text access
  // ---------------------------------------------------------------------

  /** `HTMLTag::get_attr_str`: the attribute's value, `None` when the
      attribute is absent or has no value. */
  function TagAttrStr(t: Node, attr: string): (r: Option<string>)
    requires t.Tag?
    ensures r.Some? <==> attr in t.attrs && t.attrs[attr].Some?
    ensures r.Some? ==> r.value == t.attrs[attr].value
  {
    if attr in t.attrs then t.attrs[attr] else None
  }

  /** `HTMLTag::get_attr`: `Ok(None)` when the attribute is absent,
      `Err(ParseError)` when it is present but does not parse, otherwise
      `Ok(Some(v))` with `v` parsed from it. */
  function TagGetAttr<T>(t: Node, attr: string, parse: string -> Option<T>): (r: Result<Option<T>>)
    requires t.Tag?
    ensures r == Ok(None) <==> TagAttrStr(t, attr).None?
    ensures r.Err? <==> TagAttrStr(t, attr).Some? && parse(TagAttrStr(t, attr).value).None?
    ensures r.Err? ==> r.error == ParseError
    ensures r.Ok? && r.value.Some? ==> Some(r.value.value) == parse(TagAttrStr(t, attr).value)
  {
    var s := TagAttrStr(t, attr);
    if s.None? then Ok(None)
    else match parse(s.value)
      case Some(v) => Ok(Some(v))
      case None => Err(ParseError)
  }

  /** The concatenated text of a subtree (`Node::inner_text`). */
  function TextContent(n: Node): string
    decreases n
  {
    match n
    case Text(s) => s
    case Tag(_, _, cs) => ForestText(cs)
  }

  function ForestText(cs: seq<Node>): string
    decreases cs
  {
    if cs == [] then "" else ForestText(cs[..|cs| - 1]) + TextContent(cs[|cs| - 1])
  }

  // ---------------------------------------------------------------------
  // RichNode
  // ---------------------------------------------------------------------

  /** A node handle, possibly absent, together with its document. */
  datatype RichNode = RichNode(d: Document, n: Option<Handle>)

  /** `NodeHandleExtension::to_rich`. */
  function ToRich(h: Handle, d: Document): RichNode {
    RichNode(d, Some(h))
  }

  /** `RichNode::get`: the node, if the handle is present and valid. */
  function GetNode(rn: RichNode): (r: Option<Node>)
    ensures r.Some? <==> rn.n.Some? && Get(rn.d, rn.n.value).Some?
    ensures r.Some? ==> r == Get(rn.d, rn.n.value)
  {
    if rn.n.Some? then Get(rn.d, rn.n.value) else None
  }

  /** `RichNode::find_where`: the first node below the wrapped one, the
      node itself tested first, that satisfies `f`; absent on an absent
      node. It stays in the same document. */
  function FindWhere(rn: RichNode, f: Node -> bool): (r: RichNode)
    ensures r.d == rn.d
    ensures rn.n.None? ==> r.n.None?
  {
    if rn.n.None? then RichNode(rn.d, None)
    else
      var found := match Get(rn.d, rn.n.value)
        case None => None
        case Some(node) => FirstOf(Select(node, rn.n.value, f));
      RichNode(rn.d, found)
  }

  /** `RichNode::find`: the search `find_where` makes, with `compare_class`. */
  function Find(rn: RichNode, cls: string): RichNode {
    FindWhere(rn, CompareClass(cls))
  }

  /** `RichNode::find_all`: every tag below carrying the class, wrapped. */
  function FindAll(rn: RichNode, cls: string): (rs: seq<RichNode>)
    ensures rn.n.None? ==> rs == []
    ensures rn.n.Some? ==> |rs| == |ClassNodes(rn.d, rn.n.value, cls)|
    ensures rn.n.Some? ==> forall i | 0 <= i < |rs| :: rs[i] == ToRich(ClassNodes(rn.d, rn.n.value, cls)[i], rn.d)
  {
    if rn.n.None? then []
    else
      var hs := ClassNodes(rn.d, rn.n.value, cls);
      seq(|hs|, i requires 0 <= i < |hs| => ToRich(hs[i], rn.d))
  }

  /** `find` yields the first tag in document order under the node that
      carries the class: absent exactly when `select_nodes` finds nothing,
      otherwise a tag with the class that precedes every other such tag. */
  lemma FindFirstMatch(rn: RichNode, cls: string)
    requires rn.n.Some?
    ensures Find(rn, cls).d == rn.d
    ensures Find(rn, cls).n.None? <==> ClassNodes(rn.d, rn.n.value, cls) == []
    ensures Find(rn, cls).n.Some? ==>
      var x := Find(rn, cls).n.value;
      && x in ClassNodes(rn.d, rn.n.value, cls)
      && Get(rn.d, x).Some? && HasClassToken(Get(rn.d, x).value, cls)
      && (forall y | y in ClassNodes(rn.d, rn.n.value, cls) && y != x :: Precedes(x, y))
  {
    var hs := ClassNodes(rn.d, rn.n.value, cls);
    if hs != [] {
      var x := hs[0];
      ClassNodesExact(rn.d, rn.n.value, cls, x);
      forall y | y in hs && y != x ensures Precedes(x, y) {
        var j :| 0 <= j < |hs| && hs[j] == y;
        assert j != 0;
      }
    }
  }

  /** `find_where` on a present node yields the first node in document
      order below it that satisfies `f`: absent exactly when nothing in the
      subtree does, otherwise a node satisfying `f` that precedes every
      other such node. */
  lemma FindWhereFirstMatch(rn: RichNode, f: Node -> bool)
    requires rn.n.Some? && Get(rn.d, rn.n.value).Some?
    ensures FindWhere(rn, f).d == rn.d
    ensures FindWhere(rn, f).n.None? <==> Select(Get(rn.d, rn.n.value).value, rn.n.value, f) == []
    ensures FindWhere(rn, f).n.Some? ==>
      var hs := Select(Get(rn.d, rn.n.value).value, rn.n.value, f);
      var x := FindWhere(rn, f).n.value;
      && x in hs
      && Get(rn.d, x).Some? && f(Get(rn.d, x).value)
      && (forall y | y in hs && y != x :: Precedes(x, y))
  {
    var h := rn.n.value;
    var node := Get(rn.d, h).value;
    var hs := Select(node, h, f);
    if hs != [] {
      var x := hs[0];
      SelectSound(node, h, f, x);
      assert x == h + x[|h|..];
      GetAppend(rn.d, h, x[|h|..]);
      SelectInDocumentOrder(node, h, f);
      forall y | y in hs && y != x ensures Precedes(x, y) {
        var j :| 0 <= j < |hs| && hs[j] == y;
        assert j != 0;
      }
    }
  }

  function ChildrenOf(rn: RichNode): Option<seq<Node>> {
    match GetNode(rn)
    case Some(Tag(_, _, cs)) => Some(cs)
    case _ => None
  }

  /** The number of tags among `cs`. */
  function CountTags(cs: seq<Node>): nat {
    if cs == [] then 0 else CountTags(cs[..|cs| - 1]) + (if cs[|cs| - 1].Tag? then 1 else 0)
  }

  /** A tag at position `k` has more tags up to and including it than
      before it, and no prefix has more tags than the whole. */
  lemma {:induction false} CountTagsPrefix(cs: seq<Node>, k: nat)
    requires k <= |cs|
    ensures CountTags(cs[..k]) <= CountTags(cs)
    ensures k < |cs| && cs[k].Tag? ==> CountTags(cs[..k]) < CountTags(cs)
    decreases |cs| - k
  {
    if k < |cs| {
      assert cs[..k + 1][..k] == cs[..k];
      CountTagsPrefix(cs, k + 1);
    } else {
      assert cs[..k] == cs;
    }
  }

  /** `RichNode::child`: the `index`-th child that is a tag (0-based, text
      children skipped); `None` when the node is absent, is not a tag, or
      has at most `index` tag children. */
  method Child(rn: RichNode, index: nat) returns (r: Option<RichNode>)
    ensures r.Some? <==> ChildrenOf(rn).Some? && index < CountTags(ChildrenOf(rn).value)
    ensures r.Some? ==>
      var h := rn.n.value;
      var cs := ChildrenOf(rn).value;
      && r.value.d == rn.d && r.value.n.Some?
      && var c := r.value.n.value;
      && |c| == |h| + 1 && c[..|h|] == h && c[|h|] < |cs|
      && cs[c[|h|]].Tag? && CountTags(cs[..c[|h|]]) == index
      && Get(rn.d, c) == Some(cs[c[|h|]])
  {
    var node := GetNode(rn);
    if node.None? || !node.value.Tag? {
      return None;
    }
    var h := rn.n.value;
    var cs := node.value.children;
    var i: nat := 0;
    var k: nat := 0;
    while k < |cs|
      invariant k <= |cs|
      invariant i == CountTags(cs[..k]) && i <= index
    {
      assert cs[..k + 1][..k] == cs[..k];
      if cs[k].Tag? {
        if index == i {
          assert (h + [k])[..|h|] == h;
          CountTagsPrefix(cs, k);
          GetAppend(rn.d, h, [k]);
          return Some(ToRich(h + [k], rn.d));
        }
        i := i + 1;
      }
      k := k + 1;
    }
    assert cs[..k] == cs;
    return None;
  }

  /** `RichNode::get_attr_str`: the attribute of the node, `None` when the
      node is absent or not a tag, or the attribute is missing. */
  function GetAttrStr(rn: RichNode, attr: string): (r: Option<string>)
    ensures r.Some? <==> GetNode(rn).Some? && GetNode(rn).value.Tag? && TagAttrStr(GetNode(rn).value, attr).Some?
    ensures r.Some? ==> r == TagAttrStr(GetNode(rn).value, attr)
  {
    var node := GetNode(rn);
    if node.None? || !node.value.Tag? then None
    else if attr in node.value.attrs then node.value.attrs[attr]
    else None
  }

  /** `RichNode::get_attr`: `Ok(None)` when there is no attribute string,
      `Err(ParseError)` when it does not parse, otherwise `Ok(Some(v))`. */
  function GetAttr<T>(rn: RichNode, attr: string, parse: string -> Option<T>): (r: Result<Option<T>>)
    ensures r == Ok(None) <==> GetAttrStr(rn, attr).None?
    ensures r.Err? <==> GetAttrStr(rn, attr).Some? && parse(GetAttrStr(rn, attr).value).None?
    ensures r.Err? ==> r.error == ParseError
    ensures r.Ok? && r.value.Some? ==> Some(r.value.value) == parse(GetAttrStr(rn, attr).value)
  {
    var s := GetAttrStr(rn, attr);
    if s.None? then Ok(None)
    else match parse(s.value)
      case Some(v) => Ok(Some(v))
      case None => Err(ParseError)
  }

  /** On a present tag, the wrapper's `get_attr` is the tag's `get_attr`. */
  lemma GetAttrOfTag<T>(rn: RichNode, attr: string, parse: string -> Option<T>)
    requires GetNode(rn).Some? && GetNode(rn).value.Tag?
    ensures GetAttr(rn, attr, parse) == TagGetAttr(GetNode(rn).value, attr, parse)
  {
  }

  /** `RichNode::has_class`: `None` when the node is absent or not a tag,
      otherwise whether `cls` is one of its class tokens. */
  function HasClass(rn: RichNode, cls: string): (r: Option<bool>)
    ensures r.None? <==> GetNode(rn).None? || !GetNode(rn).value.Tag?
    ensures r.Some? ==> (r.value <==> cls in ClassTokens(GetNode(rn).value.attrs))
  {
    match GetNode(rn)
    case Some(Tag(_, attrs, _)) => Some(IsClassMember(attrs, cls))
    case _ => None
  }

  /** `RichNode::inner_text`: the concatenated text below the node, `None`
      when the node is absent. */
  function InnerText(rn: RichNode): (r: Option<string>)
    ensures r.None? <==> GetNode(rn).None?
    ensures r.Some? ==> r.value == TextContent(GetNode(rn).value)
  {
    match GetNode(rn)
    case None => None
    case Some(node) => Some(TextContent(node))
  }

  /** `RichNode::inner_parse`: `Ok(None)` when there is no text,
      `Err(ParseError)` when the text does not parse, otherwise `Ok(Some(v))`. */
  function InnerParse<T>(rn: RichNode, parse: string -> Option<T>): (r: Result<Option<T>>)
    ensures r == Ok(None) <==> GetNode(rn).None?
    ensures r.Err? <==> GetNode(rn).Some? && parse(TextContent(GetNode(rn).value)).None?
    ensures r.Err? ==> r.error == ParseError
    ensures r.Ok? && r.value.Some? ==> Some(r.value.value) == parse(TextContent(GetNode(rn).value))
  {
    var t := InnerText(rn);
    if t.None? then Ok(None)
    else match parse(t.value)
      case Some(x) => Ok(Some(x))
      case None => Err(ParseError)
  }

  /** An absent node stays absent through every wrapper operation, so a
      chain of lookups that loses its node ends in `None`, `[]` or `Ok(None)`. */
  lemma AbsentPropagates<T>(d: Document, cls: string, attr: string, f: Node -> bool, parse: string -> Option<T>)
    ensures Find(RichNode(d, None), cls) == RichNode(d, None)
    ensures FindWhere(RichNode(d, None), f) == RichNode(d, None)
    ensures FindAll(RichNode(d, None), cls) == []
    ensures ChildrenOf(RichNode(d, None)).None?
    ensures GetAttrStr(RichNode(d, None), attr).None?
    ensures GetAttr(RichNode(d, None), attr, parse) == Ok(None)
    ensures HasClass(RichNode(d, None), cls).None?
    ensures InnerText(RichNode(d, None)).None?
    ensures InnerParse(RichNode(d, None), parse) == Ok(None)
  {
  }

  /** The class attribute "first second" holds exactly two tokens. */
  lemma TwoClassTokens()
    ensures Words("first second") == ["first", "second"]
  {
    var first, second := "first", "second";
    assert forall i | 0 <= i < |first| :: !IsAsciiWhitespace(first[i]);
    assert forall i | 0 <= i < |second| :: !IsAsciiWhitespace(second[i]);
    assert "first second" == first + [' '] + second;
    WordsAfterToken(first, second);
    WordsOfToken(second, []);
    assert [] + second == second;
  }

  /** A tag whose class attribute reads "first second": `has_class` holds
      for both tokens and fails for a third name. */
  lemma HasClassTokens(d: Document, h: Handle)
    requires GetNode(ToRich(h, d)) == Some(Tag("div", map["class" := Some("first second")], []))
    ensures HasClass(ToRich(h, d), "first") == Some(true)
    ensures HasClass(ToRich(h, d), "second") == Some(true)
    ensures HasClass(ToRich(h, d), "third") == Some(false)
  {
    TwoClassTokens();
    var attrs := map["class" := Some("first second")];
    assert ClassTokens(attrs) == ["first", "second"];
    assert "third"[0] != "first"[0];
    assert |"third"| != |"second"|;
  }
}
