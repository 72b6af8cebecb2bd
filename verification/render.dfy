/**
 The tree renderer `generateJSX`: each block becomes one element descriptor
 whose tag is the block's `type`, whose props carry the joined class string and
 the block id (as React `key` and as `data-block-id`), and whose body is either
 the rendered children or the block's text.

 Its inverse is `ParseElements`, which reads descriptors back into blocks; the
 round-trip lemma shows that rendering loses nothing as long as every class
 token is nonempty and space-free.
 */
module Render {

  import Strings
  import opened Blocks

  /** `BlockProps`. */
  datatype Props = Props(className: string, key: string, blockId: string)

  /** The third argument of `createElement`: nested elements or a text payload. */
  datatype Body = Children(elements: seq<Element>) | Text(text: string)

  /** What `createElement(tag, props, body)` describes. */
  datatype Element = Element(tag: string, props: Props, body: Body)

  /** One block's element, dispatching on the membership of its `type` in the
      container enumeration's values. */
  function RenderBlock(b: Block): (e: Element)
    decreases b, 1
    ensures e.tag == b.TypeName()
    ensures e.tag in ContainerTypeValues || e.tag in ContentTypeValues
    ensures e.props.key == b.id && e.props.blockId == b.id
    ensures e.props.className == Strings.Join(b.classList, " ")
    ensures e.body.Children? <==> b.Container?
    ensures b.Container? ==> e.body == Children(Render(b.children))
    ensures b.Content? ==> e.body == Text(b.data)
  {
    ContainerTestClassifies(b);
    var tag := b.TypeName();
    var isContainerType := IsContainerType(tag);
    var props := Props(Strings.Join(b.classList, " "), b.id, b.id);
    Element(tag, props, if isContainerType then Children(Render(b.children)) else Text(b.data))
  }

  /** `generateJSX`: maps the blocks to their elements, one for one and in order. */
  function Render(bs: seq<Block>): (r: seq<Element>)
    decreases bs, 0
    ensures |r| == |bs|
    ensures forall i :: 0 <= i < |bs| ==> r[i] == RenderBlock(bs[i])
  {
    if |bs| == 0 then []
    else [RenderBlock(bs[0])] + Render(bs[1..])
  }

  /** Rendering a concatenation renders each part; so appending blocks to the
      state only appends elements to what was rendered before. */
  lemma RenderAppend(a: seq<Block>, b: seq<Block>)
    ensures Render(a + b) == Render(a) + Render(b)
  {
  }

  /** A container with one paragraph renders as a `div` element holding one `p`
      element whose payload is the paragraph's text. */
  lemma RenderNestedExample()
    ensures Render([Container("A", [], Div, [Content("B", [], P, "hi")])]) ==
      [Element("div", Props("", "A", "A"),
               Children([Element("p", Props("", "B", "B"), Text("hi"))]))]
  {
    var inner := [Content("B", [], P, "hi")];
    assert Render(inner) == [RenderBlock(inner[0])];
  }

  /** Without well-formed class lists two different blocks can render alike. */
  lemma RenderIsLossyOnEmptyClass()
    ensures Content("x", [], P, "") != Content("x", [""], P, "")
    ensures Render([Content("x", [], P, "")]) == Render([Content("x", [""], P, "")])
  {
  }

  /** Reads one element back as a block. `None` when the tag is in neither
      enumeration, when the body does not fit the tag's variant, or when the
      `key` and `data-block-id` props disagree. */
  function ParseElement(e: Element): (r: Option<Block>)
    decreases e
    ensures r.Some? ==> r.value.TypeName() == e.tag && r.value.id == e.props.key
  {
    if e.props.key != e.props.blockId then None
    else
      var classes := Strings.ClassTokens(e.props.className);
      match ParseContainerType(e.tag)
      case Some(t) =>
        (match e.body
         case Children(cs) =>
           (match ParseElements(cs)
            case Some(children) => Some(Container(e.props.key, classes, t, children))
            case None => None)
         case Text(_) => None)
      case None =>
        match ParseContentType(e.tag)
        case Some(t) =>
          (match e.body
           case Text(d) => Some(Content(e.props.key, classes, t, d))
           case Children(_) => None)
        case None => None
  }

  /** Reads a sequence of elements back as blocks; `None` if any element fails. */
  function ParseElements(es: seq<Element>): (r: Option<seq<Block>>)
    decreases es
    ensures r.Some? ==> |r.value| == |es|
  {
    if |es| == 0 then Some([])
    else
      match ParseElement(es[0])
      case None => None
      case Some(b) =>
        match ParseElements(es[1..])
        case None => None
        case Some(rest) => Some([b] + rest)
  }

  /** Reading back a rendered block gives the block. */
  lemma {:induction false} ParseRenderBlock(b: Block)
    requires WellFormedBlock(b)
    ensures ParseElement(RenderBlock(b)) == Some(b)
    decreases b, 1
  {
    var e := RenderBlock(b);
    Strings.ClassTokensOfJoin(b.classList);
    match b
    case Container(id, classes, t, children) =>
      TagNamesRoundTrip(t, P);
      ParseRender(children);
    case Content(id, classes, t, data) =>
      TagNamesRoundTrip(Div, t);
  }

  /** Rendering is lossless on well-formed trees: reading back the rendered
      elements gives the blocks, with every id, class list, tag, child and
      text payload in place. */
  lemma {:induction false} ParseRender(bs: seq<Block>)
    requires WellFormedBlocks(bs)
    ensures ParseElements(Render(bs)) == Some(bs)
    decreases bs, 0
  {
    if |bs| > 0 {
      ParseRenderBlock(bs[0]);
      ParseRender(bs[1..]);
      assert Render(bs)[1..] == Render(bs[1..]);
      assert [bs[0]] + bs[1..] == bs;
    }
  }

  /** Two well-formed block sequences that render alike are equal. */
  lemma RenderInjective(a: seq<Block>, b: seq<Block>)
    requires WellFormedBlocks(a) && WellFormedBlocks(b)
    requires Render(a) == Render(b)
    ensures a == b
  {
    ParseRender(a);
    ParseRender(b);
  }
}
