/** Preparing the SVG overlay for rasterising: stripping comment nodes and
    turning percentage coordinates into pixels. Both work on a copy; here the
    tree is a value, so the caller's tree is never changed. */
module SvgPrep {

  /** An attribute value as `parseFloat` reads it: a number, or text that
      does not start with one. */
  datatype AttrValue = Number(v: real) | Other(text: string)

  datatype Node =
    | Element(tag: string, attrs: map<string, AttrValue>, children: seq<Node>)
    | Text(text: string)
    | Comment(text: string)

  predicate CommentFree(n: Node)
  {
    match n
    case Comment(_) => false
    case Text(_) => true
    case Element(_, _, cs) => forall c :: c in cs ==> CommentFree(c)
  }

  // ---------------------------------------------------------------------
  // Removing comments

  /** `n` with every comment below it removed. */
  function CleanNode(n: Node): (r: Node)
    requires !n.Comment?
    ensures CommentFree(r)
    ensures r.Text? <==> n.Text?
    ensures n.Text? ==> r == n
    ensures n.Element? ==> r.tag == n.tag && r.attrs == n.attrs
    decreases n
  {
    match n
    case Text(_) => n
    case Element(tag, attrs, cs) => Element(tag, attrs, CleanChildren(cs))
  }

  /** The non-comment nodes of `cs`, each cleaned, in their original order. */
  function CleanChildren(cs: seq<Node>): (r: seq<Node>)
    ensures forall c :: c in r ==> CommentFree(c)
    ensures |r| <= |cs|
    decreases cs
  {
    if cs == [] then []
    else (if cs[0].Comment? then [] else [CleanNode(cs[0])]) + CleanChildren(cs[1..])
  }

  /** `cleanSVG`: the root element with every comment beneath it removed. */
  function CleanSvg(root: Node): (r: Node)
    requires root.Element?
    ensures CommentFree(r)
    ensures r.Element? && r.tag == root.tag && r.attrs == root.attrs
  {
    CleanNode(root)
  }

  /** One entry per non-comment node, in document order, with its depth:
      the order and the depths together fix every node's parent. */
  datatype Entry =
    | ElementEntry(depth: nat, tag: string, attrs: map<string, AttrValue>)
    | TextEntry(depth: nat, text: string)

  function Outline(n: Node, depth: nat): seq<Entry>
    decreases n
  {
    match n
    case Comment(_) => []
    case Text(t) => [TextEntry(depth, t)]
    case Element(tag, attrs, cs) => [ElementEntry(depth, tag, attrs)] + OutlineAll(cs, depth + 1)
  }

  function OutlineAll(cs: seq<Node>, depth: nat): seq<Entry>
    decreases cs
  {
    if cs == [] then [] else Outline(cs[0], depth) + OutlineAll(cs[1..], depth)
  }

  /** Cleaning keeps every non-comment node, in order, under the same parent. */
  lemma {:induction false} CleanKeepsOutline(n: Node, depth: nat)
    requires !n.Comment?
    ensures Outline(CleanNode(n), depth) == Outline(n, depth)
    decreases n
  {
    match n
    case Text(_) =>
    case Element(_, _, cs) => CleanChildrenKeepOutline(cs, depth + 1);
  }

  lemma {:induction false} CleanChildrenKeepOutline(cs: seq<Node>, depth: nat)
    ensures OutlineAll(CleanChildren(cs), depth) == OutlineAll(cs, depth)
    decreases cs
  {
    if cs != [] {
      CleanChildrenKeepOutline(cs[1..], depth);
      var head := if cs[0].Comment? then [] else [CleanNode(cs[0])];
      OutlineAllConcat(head, CleanChildren(cs[1..]), depth);
      if !cs[0].Comment? {
        CleanKeepsOutline(cs[0], depth);
        assert OutlineAll(head, depth) == Outline(CleanNode(cs[0]), depth) + OutlineAll([], depth);
      }
    }
  }

  lemma {:induction false} OutlineAllConcat(a: seq<Node>, b: seq<Node>, depth: nat)
    ensures OutlineAll(a + b, depth) == OutlineAll(a, depth) + OutlineAll(b, depth)
  {
    if a == [] {
      assert a + b == b;
    } else {
      assert (a + b)[1..] == a[1..] + b;
      OutlineAllConcat(a[1..], b, depth);
    }
  }

  /** A tree without comments comes out of cleaning as it went in. */
  lemma {:induction false} CleanCommentFree(n: Node)
    requires CommentFree(n)
    ensures CleanNode(n) == n
    decreases n
  {
    match n
    case Text(_) =>
    case Element(_, _, cs) => CleanChildrenCommentFree(cs);
  }

  lemma {:induction false} CleanChildrenCommentFree(cs: seq<Node>)
    requires forall c :: c in cs ==> CommentFree(c)
    ensures CleanChildren(cs) == cs
    decreases cs
  {
    if cs != [] {
      assert cs[0] in cs;
      CleanCommentFree(cs[0]);
      assert forall c :: c in cs[1..] ==> c in cs;
      CleanChildrenCommentFree(cs[1..]);
      assert cs == [cs[0]] + cs[1..];
    }
  }

  /** Cleaning twice is cleaning once. */
  lemma CleanIdempotent(root: Node)
    requires root.Element?
    ensures CleanSvg(CleanSvg(root)) == CleanSvg(root)
  {
    CleanCommentFree(CleanSvg(root));
  }

  // ---------------------------------------------------------------------
  // Percentages to pixels

  /** The elements whose positions are converted. */
  const ScaledTags: set<string> := {"line", "circle", "text"}

  /** Attributes measured along the width, and along the height. */
  const XAttrs: set<string> := {"x1", "x2", "cx", "x"}
  const YAttrs: set<string> := {"y1", "y2", "cy", "y"}

  /** v percent of `dimension`; text that is not a number becomes NaN. */
  function Scale(v: AttrValue, dimension: real): (r: AttrValue)
    ensures r.Number? <==> v.Number?
    ensures v.Number? ==> r.v * 100.0 == v.v * dimension
    ensures v.Other? ==> r == Other("NaN")
  {
    match v
    case Number(x) => Number(x / 100.0 * dimension)
    case Other(_) => Other("NaN")
  }

  /** `setAttr`: rewrites an attribute that is present, adds none. */
  function SetAttr(m: map<string, AttrValue>, attr: string, dimension: real): (r: map<string, AttrValue>)
    ensures r.Keys == m.Keys
    ensures attr in m ==> r[attr] == Scale(m[attr], dimension)
    ensures forall k :: k in m && k != attr ==> r[k] == m[k]
  {
    if attr in m then m[attr := Scale(m[attr], dimension)] else m
  }

  /** Which image extent an attribute is measured along. */
  datatype Axis = Horizontal | Vertical

  function Extent(axis: Axis, width: real, height: real): real
  {
    if axis == Horizontal then width else height
  }

  /** The conversions made on each selected element, in their order: the
      eight `setAttr` calls, then the inline conversion of `r`, which is
      measured along the width. */
  const Conversions: seq<(string, Axis)> := [
    ("x1", Horizontal), ("y1", Vertical), ("x2", Horizontal), ("y2", Vertical),
    ("cx", Horizontal), ("cy", Vertical), ("x", Horizontal), ("y", Vertical),
    ("r", Horizontal)]

  ghost predicate DistinctNames(cs: seq<(string, Axis)>)
  {
    forall i, j :: 0 <= i < j < |cs| ==> cs[i].0 != cs[j].0
  }

  /** The attribute map after the calls `cs`, made one after another. */
  function Apply(m: map<string, AttrValue>, cs: seq<(string, Axis)>, width: real, height: real): (r: map<string, AttrValue>)
    ensures r.Keys == m.Keys
    ensures forall k :: k in m && (forall i :: 0 <= i < |cs| ==> cs[i].0 != k) ==> r[k] == m[k]
    decreases |cs|
  {
    if cs == [] then m
    else Apply(SetAttr(m, cs[0].0, Extent(cs[0].1, width, height)), cs[1..], width, height)
  }

  /** With distinct names, each present attribute is converted once, by its
      own call, and an attribute no call names is left alone. */
  lemma {:induction false} ApplyConverts(m: map<string, AttrValue>, cs: seq<(string, Axis)>, width: real, height: real)
    requires DistinctNames(cs)
    ensures Apply(m, cs, width, height).Keys == m.Keys
    ensures forall i :: 0 <= i < |cs| && cs[i].0 in m ==>
      Apply(m, cs, width, height)[cs[i].0] == Scale(m[cs[i].0], Extent(cs[i].1, width, height))
    ensures forall k :: k in m && (forall i :: 0 <= i < |cs| ==> cs[i].0 != k) ==>
      Apply(m, cs, width, height)[k] == m[k]
    decreases |cs|
  {
    if cs != [] {
      var m1 := SetAttr(m, cs[0].0, Extent(cs[0].1, width, height));
      var rest := cs[1..];
      assert DistinctNames(rest) by {
        forall i, j | 0 <= i < j < |rest| ensures rest[i].0 != rest[j].0 {
          assert rest[i] == cs[i + 1] && rest[j] == cs[j + 1];
        }
      }
      ApplyConverts(m1, rest, width, height);
      var r := Apply(m, cs, width, height);
      assert r == Apply(m1, rest, width, height);
      forall i | 0 <= i < |cs| && cs[i].0 in m
        ensures r[cs[i].0] == Scale(m[cs[i].0], Extent(cs[i].1, width, height))
      {
        if i > 0 {
          assert rest[i - 1] == cs[i];
          forall j | 0 <= j < |rest| ensures rest[j].0 != cs[0].0 {
            assert rest[j] == cs[j + 1];
          }
        } else {
          forall j | 0 <= j < |rest| ensures rest[j].0 != cs[0].0 {
            assert rest[j] == cs[j + 1];
          }
        }
      }
      forall k | k in m && (forall i :: 0 <= i < |cs| ==> cs[i].0 != k) ensures r[k] == m[k] {
        assert cs[0].0 != k;
        forall j | 0 <= j < |rest| ensures rest[j].0 != k {
          assert rest[j] == cs[j + 1];
        }
      }
    }
  }

  /** The attributes of one line, circle or text element after conversion:
      x-like attributes and `r` scale by the width, y-like ones by the
      height, every other attribute is kept, and none is added. */
  function ScaleAttrs(attrs: map<string, AttrValue>, width: real, height: real): (r: map<string, AttrValue>)
    ensures r.Keys == attrs.Keys
    ensures forall k :: k in attrs && k in XAttrs ==> r[k] == Scale(attrs[k], width)
    ensures forall k :: k in attrs && k in YAttrs ==> r[k] == Scale(attrs[k], height)
    ensures "r" in attrs ==> r["r"] == Scale(attrs["r"], width)
    ensures forall k :: k in attrs && k !in XAttrs && k !in YAttrs && k != "r" ==> r[k] == attrs[k]
  {
    ConversionsDistinct();
    ApplyConverts(attrs, Conversions, width, height);
    ConversionsCover();
    Apply(attrs, Conversions, width, height)
  }

  lemma ConversionsDistinct()
    ensures DistinctNames(Conversions)
  {
  }

  /** The table names exactly the x-like, y-like and `r` attributes. */
  lemma ConversionsCover()
    ensures forall k :: k in XAttrs ==> exists i :: 0 <= i < |Conversions| && Conversions[i] == (k, Horizontal)
    ensures forall k :: k in YAttrs ==> exists i :: 0 <= i < |Conversions| && Conversions[i] == (k, Vertical)
    ensures Conversions[8] == ("r", Horizontal)
    ensures forall i :: 0 <= i < |Conversions| ==> Conversions[i].0 in XAttrs || Conversions[i].0 in YAttrs || Conversions[i].0 == "r"
  {
    assert Conversions[0] == ("x1", Horizontal) && Conversions[2] == ("x2", Horizontal);
    assert Conversions[4] == ("cx", Horizontal) && Conversions[6] == ("x", Horizontal);
    assert Conversions[1] == ("y1", Vertical) && Conversions[3] == ("y2", Vertical);
    assert Conversions[5] == ("cy", Vertical) && Conversions[7] == ("y", Vertical);
  }

  /** `n` with every line, circle and text element at or below it converted. */
  function FixNode(n: Node, width: real, height: real): (r: Node)
    ensures r.Element? <==> n.Element?
    ensures !n.Element? ==> r == n
    ensures n.Element? ==> r.tag == n.tag && |r.children| == |n.children|
    ensures n.Element? && n.tag !in ScaledTags ==> r.attrs == n.attrs
    ensures n.Element? && n.tag in ScaledTags ==> r.attrs == ScaleAttrs(n.attrs, width, height)
    ensures n.Element? ==> r.children == FixChildren(n.children, width, height)
    decreases n
  {
    match n
    case Element(tag, attrs, cs) =>
      Element(tag, if tag in ScaledTags then ScaleAttrs(attrs, width, height) else attrs, FixChildren(cs, width, height))
    case _ => n
  }

  function FixChildren(cs: seq<Node>, width: real, height: real): (r: seq<Node>)
    ensures |r| == |cs|
    ensures forall i :: 0 <= i < |cs| ==> r[i] == FixNode(cs[i], width, height)
    decreases cs
  {
    if cs == [] then [] else [FixNode(cs[0], width, height)] + FixChildren(cs[1..], width, height)
  }

  /** `fixSvgPercentUnits`: the descendants of `root` are converted; the
      root itself is not one of the elements selected. */
  function FixSvgPercentUnits(root: Node, width: real, height: real): (r: Node)
    requires root.Element?
    ensures r.Element? && r.tag == root.tag && r.attrs == root.attrs
    ensures |r.children| == |root.children|
    ensures r.children == FixChildren(root.children, width, height)
  {
    Element(root.tag, root.attrs, FixChildren(root.children, width, height))
  }

  /** Every selected element below the root is converted, however deep:
      here a `line` that is a grandchild of the root. */
  lemma GrandchildLineConverted(root: Node, i: nat, j: nat, width: real, height: real)
    requires root.Element? && i < |root.children|
    requires root.children[i].Element? && j < |root.children[i].children|
    requires root.children[i].children[j].Element? && root.children[i].children[j].tag == "line"
    requires "x1" in root.children[i].children[j].attrs
    ensures var line := FixSvgPercentUnits(root, width, height).children[i].children[j];
      line.Element? && line.attrs["x1"] == Scale(root.children[i].children[j].attrs["x1"], width)
  {
  }

  /** Conversion removes and adds no node, so it keeps a tree comment-free. */
  lemma {:induction false} FixKeepsCommentFree(n: Node, width: real, height: real)
    requires CommentFree(n)
    ensures CommentFree(FixNode(n, width, height))
    decreases n
  {
    match n
    case Text(_) =>
    case Element(_, _, cs) => FixChildrenKeepCommentFree(cs, width, height);
  }

  lemma {:induction false} FixChildrenKeepCommentFree(cs: seq<Node>, width: real, height: real)
    requires forall c :: c in cs ==> CommentFree(c)
    ensures forall c :: c in FixChildren(cs, width, height) ==> CommentFree(c)
    decreases cs
  {
    if cs != [] {
      assert cs[0] in cs;
      FixKeepsCommentFree(cs[0], width, height);
      assert forall c :: c in cs[1..] ==> c in cs;
      FixChildrenKeepCommentFree(cs[1..], width, height);
    }
  }

  /** Every converted attribute of a selected element holds a number. */
  predicate NumericPositions(n: Node)
    decreases n
  {
    match n
    case Element(tag, attrs, cs) =>
      && (tag in ScaledTags ==> forall k :: k in attrs && (k in XAttrs || k in YAttrs || k == "r") ==> attrs[k].Number?)
      && forall c :: c in cs ==> NumericPositions(c)
    case _ => true
  }

  /** Pixels back to percentages: the reference inverse of the conversion. */
  function Unscale(v: AttrValue, dimension: real): AttrValue
    requires dimension != 0.0
  {
    match v
    case Number(x) => Number(x * 100.0 / dimension)
    case Other(_) => v
  }

  function UnscaleAttrs(attrs: map<string, AttrValue>, width: real, height: real): map<string, AttrValue>
    requires width != 0.0 && height != 0.0
  {
    map k | k in attrs ::
      if k in XAttrs || k == "r" then Unscale(attrs[k], width)
      else if k in YAttrs then Unscale(attrs[k], height)
      else attrs[k]
  }

  function UnfixNode(n: Node, width: real, height: real): Node
    requires width != 0.0 && height != 0.0
    decreases n
  {
    match n
    case Element(tag, attrs, cs) =>
      Element(tag, if tag in ScaledTags then UnscaleAttrs(attrs, width, height) else attrs, UnfixChildren(cs, width, height))
    case _ => n
  }

  function UnfixChildren(cs: seq<Node>, width: real, height: real): seq<Node>
    requires width != 0.0 && height != 0.0
    decreases cs
  {
    if cs == [] then [] else [UnfixNode(cs[0], width, height)] + UnfixChildren(cs[1..], width, height)
  }

  lemma ScaleRoundTrip(x: real, dimension: real)
    requires dimension != 0.0
    ensures Unscale(Scale(Number(x), dimension), dimension) == Number(x)
  {
    assert x / 100.0 * dimension * 100.0 / dimension == x;
  }

  lemma ScaleAttrsRoundTrip(attrs: map<string, AttrValue>, width: real, height: real)
    requires width != 0.0 && height != 0.0
    requires forall k :: k in attrs && (k in XAttrs || k in YAttrs || k == "r") ==> attrs[k].Number?
    ensures UnscaleAttrs(ScaleAttrs(attrs, width, height), width, height) == attrs
  {
    var sa := ScaleAttrs(attrs, width, height);
    var r := UnscaleAttrs(sa, width, height);
    forall k | k in attrs ensures r[k] == attrs[k] {
      if k in XAttrs || k == "r" {
        assert sa[k] == Scale(attrs[k], width);
        ScaleRoundTrip(attrs[k].v, width);
        assert r[k] == Unscale(sa[k], width);
      } else if k in YAttrs {
        assert sa[k] == Scale(attrs[k], height);
        ScaleRoundTrip(attrs[k].v, height);
        assert r[k] == Unscale(sa[k], height);
      } else {
        assert r[k] == sa[k] == attrs[k];
      }
    }
    assert r.Keys == attrs.Keys;
  }

  /** Converting to pixels and back gives the original tree, so the
      conversion loses nothing: no node, attribute or value other than the
      converted positions changes. */
  lemma {:induction false} FixRoundTrip(n: Node, width: real, height: real)
    requires width != 0.0 && height != 0.0
    requires NumericPositions(n)
    ensures UnfixNode(FixNode(n, width, height), width, height) == n
    decreases n
  {
    match n
    case Element(tag, attrs, cs) =>
      if tag in ScaledTags {
        ScaleAttrsRoundTrip(attrs, width, height);
      }
      FixChildrenRoundTrip(cs, width, height);
    case _ =>
  }

  lemma {:induction false} FixChildrenRoundTrip(cs: seq<Node>, width: real, height: real)
    requires width != 0.0 && height != 0.0
    requires forall c :: c in cs ==> NumericPositions(c)
    ensures UnfixChildren(FixChildren(cs, width, height), width, height) == cs
    decreases cs
  {
    if cs != [] {
      assert cs[0] in cs;
      FixRoundTrip(cs[0], width, height);
      assert forall c :: c in cs[1..] ==> c in cs;
      FixChildrenRoundTrip(cs[1..], width, height);
      assert cs == [cs[0]] + cs[1..];
    }
  }
}
