/**
 The block model of the page builder: the two closed tag vocabularies and the
 two-variant block tree. A block's `type` is a typed enumeration value, so a
 container can only carry a container tag and a content block a content tag.
 */
module Blocks {

  import Strings

  datatype Option<T> = None | Some(value: T)

  /** `HtmlContainerTypes`: the tags whose blocks hold child blocks. */
  datatype ContainerType = Div | Section
  {
    /** The enumeration member's string value, the element tag. */
    function Name(): string
    {
      match this
      case Div => "div"
      case Section => "section"
    }
  }

  /** `HtmlContentTypes`: the tags whose blocks hold a text payload. */
  datatype ContentType = P | H1 | H2 | Img
  {
    function Name(): string
    {
      match this
      case P => "p"
      case H1 => "h1"
      case H2 => "h2"
      case Img => "img"
    }
  }

  /** `Object.values(HtmlContainerTypes)`, in declaration order. */
  const ContainerTypeValues: seq<string> := ["div", "section"]

  /** `Object.values(HtmlContentTypes)`, in declaration order. */
  const ContentTypeValues: seq<string> := ["p", "h1", "h2", "img"]

  /** A block: every block has an `id` and a `classList`; a container block has
      child blocks and a content block has a `data` string. */
  datatype Block =
    | Container(id: string, classList: seq<string>, containerType: ContainerType, children: seq<Block>)
    | Content(id: string, classList: seq<string>, contentType: ContentType, data: string)
  {
    /** The block's `type` field as the string it holds at run time. */
    function TypeName(): string
    {
      match this
      case Container(_, _, t, _) => t.Name()
      case Content(_, _, t, _) => t.Name()
    }
  }

  /** The renderer's variant test: is the tag one of the container enumeration's values? */
  predicate IsContainerType(tag: string)
  {
    tag in ContainerTypeValues
  }

  /** Reads a tag back as a container type; `None` for any other string. */
  function ParseContainerType(tag: string): (r: Option<ContainerType>)
    ensures r.Some? <==> tag in ContainerTypeValues
    ensures r.Some? ==> r.value.Name() == tag
  {
    if tag == "div" then Some(Div)
    else if tag == "section" then Some(Section)
    else None
  }

  /** Reads a tag back as a content type; `None` for any other string. */
  function ParseContentType(tag: string): (r: Option<ContentType>)
    ensures r.Some? <==> tag in ContentTypeValues
    ensures r.Some? ==> r.value.Name() == tag
  {
    if tag == "p" then Some(P)
    else if tag == "h1" then Some(H1)
    else if tag == "h2" then Some(H2)
    else if tag == "img" then Some(Img)
    else None
  }

  /** The two enumerations share no value. */
  lemma TagSetsDisjoint()
    ensures forall i, j :: 0 <= i < |ContainerTypeValues| && 0 <= j < |ContentTypeValues| ==>
      ContainerTypeValues[i] != ContentTypeValues[j]
  {
  }

  /** Each enumeration value reads back as itself, so the tag names are distinct. */
  lemma TagNamesRoundTrip(ct: ContainerType, nt: ContentType)
    ensures ParseContainerType(ct.Name()) == Some(ct)
    ensures ParseContentType(nt.Name()) == Some(nt)
    ensures ParseContainerType(nt.Name()) == None
    ensures ParseContentType(ct.Name()) == None
  {
  }

  /** The membership test on a block's `type` holds exactly for container blocks,
      so the renderer never takes the container branch for a content block nor
      the content branch for a container block. */
  lemma ContainerTestClassifies(b: Block)
    ensures IsContainerType(b.TypeName()) <==> b.Container?
    ensures b.TypeName() in ContainerTypeValues || b.TypeName() in ContentTypeValues
  {
  }

  /** Every class of this block and of all blocks below it is nonempty and
      space-free, so that its joined class string can be read back. */
  predicate WellFormedBlock(b: Block)
    decreases b
  {
    && Strings.ValidClassList(b.classList)
    && (b.Container? ==> WellFormedBlocks(b.children))
  }

  predicate WellFormedBlocks(bs: seq<Block>)
    decreases bs
  {
    forall i :: 0 <= i < |bs| ==> WellFormedBlock(bs[i])
  }
}
