/**
 * The article renderer's own rules: the plain text of rendered heading
 * children, the anchor ids of h2/h3 headings, the treatment of links and the
 * image caption. Markdown parsing itself belongs to the rendering library and
 * is not part of this model.
 */
module ArticleViewer {
  import opened Common
  import TableOfContents

  /** A value passed as `children`: a string, a number, an array, an element with props, or anything else. */
  datatype Node =
    | Str(s: string)
    | Num(n: int)
    | Many(items: seq<Node>)
    | Element(children: Node)
    | Other

  /** `extractText`: the plain text of a children value. */
  function ExtractText(c: Node): string
    decreases c
  {
    match c
    case Str(s) => s
    case Num(n) => IntToString(n)
    case Many(items) => Join(seq(|items|, i requires 0 <= i < |items| => ExtractText(items[i])), "")
    case Element(children) => ExtractText(children)
    case Other => ""
  }

  /** The texts of the members of an array, in order. */
  function Texts(items: seq<Node>): (r: seq<string>)
    ensures |r| == |items|
    ensures forall i :: 0 <= i < |items| ==> r[i] == ExtractText(items[i])
  {
    seq(|items|, i requires 0 <= i < |items| => ExtractText(items[i]))
  }

  /** Joining with the empty separator is concatenation. */
  lemma {:induction false} JoinEmptyIsConcat(parts: seq<string>)
    ensures Join(parts, "") == Concat(parts)
    decreases |parts|
  {
    if |parts| > 1 {
      JoinEmptyIsConcat(parts[1..]);
      assert Concat(parts[1..]) == parts[1] + Concat(parts[2..]);
      assert parts[1..][1..] == parts[2..];
    } else if |parts| == 1 {
      assert parts[1..] == [];
    }
  }

  /** An array's text is the in-order concatenation of its members' texts. */
  lemma ManyIsConcatenation(items: seq<Node>)
    ensures ExtractText(Many(items)) == Concat(Texts(items))
  {
    assert Texts(items) == seq(|items|, i requires 0 <= i < |items| => ExtractText(items[i]));
    JoinEmptyIsConcat(Texts(items));
  }

  /** The text of the concatenation of two arrays is the first array's text followed by the second's. */
  lemma ExtractAppend(a: seq<Node>, b: seq<Node>)
    ensures ExtractText(Many(a + b)) == ExtractText(Many(a)) + ExtractText(Many(b))
  {
    ManyIsConcatenation(a);
    ManyIsConcatenation(b);
    ManyIsConcatenation(a + b);
    assert Texts(a + b) == Texts(a) + Texts(b);
    ConcatAppend(Texts(a), Texts(b));
  }

  /** Nesting an array inside an array does not change the text. */
  lemma ExtractNested(a: seq<Node>, b: seq<Node>)
    ensures ExtractText(Many([Many(a), Many(b)])) == ExtractText(Many(a + b))
  {
    ManyIsConcatenation([Many(a), Many(b)]);
    var t := Texts([Many(a), Many(b)]);
    assert t[0] == ExtractText(Many(a)) && t[1] == ExtractText(Many(b));
    assert t == [ExtractText(Many(a)), ExtractText(Many(b))];
    assert t[1..] == [t[1]] && t[1..][1..] == [];
    assert Concat(t) == t[0] + (t[1] + Concat([]));
    ExtractAppend(a, b);
  }

  /** The id of a rendered h2 or h3: the table of contents' slug of its plain text. */
  function HeadingId(children: Node): (id: string)
    ensures TableOfContents.SlugShaped(id)
  {
    TableOfContents.SlugIsShaped(ExtractText(children));
    TableOfContents.Slug(ExtractText(children))
  }

  /** A markdown heading line rendered as plain text gets the id its table-of-contents entry links to. */
  lemma HeadingIdMatchesToc(line: string)
    requires TableOfContents.Classify(line).Some?
    ensures HeadingId(Str(TableOfContents.Classify(line).value.text)) == TableOfContents.Classify(line).value.id
  {
  }

  /** Headings of equal text get equal ids, whatever children carry the text. */
  lemma EqualTextEqualId(c: Node, d: Node)
    requires ExtractText(c) == ExtractText(d)
    ensures HeadingId(c) == HeadingId(d)
  {
  }

  /** The `target` and `rel` attributes of a rendered link. */
  datatype LinkAttrs = LinkAttrs(target: Option<string>, rel: Option<string>)

  /** Links whose href starts with "http" open in a new tab without an opener. */
  function Link(href: Option<string>): (a: LinkAttrs)
    ensures a.target.Some? <==> href.Some? && StartsWith(href.value, "http")
    ensures a.rel.Some? <==> a.target.Some?
    ensures a.target.Some? ==> a.target.value == "_blank" && a.rel.value == "noopener noreferrer"
  {
    if href.Some? && StartsWith(href.value, "http") then LinkAttrs(Some("_blank"), Some("noopener noreferrer"))
    else LinkAttrs(None, None)
  }

  /** A rendered image: the `alt` attribute (empty when missing) and the caption, if any. */
  datatype Figure = Figure(alt: string, caption: Option<string>)

  function Image(alt: Option<string>): (f: Figure)
    ensures f.caption.Some? <==> alt.Some? && alt.value != ""
    ensures f.caption.Some? ==> f.caption.value == f.alt
    ensures f.alt == alt.GetOr("")
  {
    var text := alt.GetOr("");
    Figure(text, if text != "" then Some(text) else None)
  }
}
