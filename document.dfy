/** The document editor: text and image elements, a document that renders
    its elements line by line, and an editor that adds to and renders its
    document. Saving through a persistence strategy is file and console
    output and is not modelled. */
module Documents {

  datatype Element = Text(text: string) | Image(imagePath: string)

  /** `render` of each element kind. */
  function Rendered(e: Element): string
  {
    match e
    case Text(t) => "Text: " + t
    case Image(p) => "Image: [path=" + p + "]"
  }

  /** The renders of a list of elements, in order. */
  function Renders(es: seq<Element>): (r: seq<string>)
    ensures |r| == |es| && forall i :: 0 <= i < |es| ==> r[i] == Rendered(es[i])
  {
    if es == [] then [] else Renders(es[..|es| - 1]) + [Rendered(es[|es| - 1])]
  }

  /** `sep.join(parts)`. */
  function Join(parts: seq<string>, sep: string): string
  {
    if parts == [] then ""
    else if |parts| == 1 then parts[0]
    else parts[0] + sep + Join(parts[1..], sep)
  }

  /** Joining one more part puts one more separator before it. */
  lemma {:induction false} JoinAppend(parts: seq<string>, x: string, sep: string)
    ensures Join(parts + [x], sep) == if parts == [] then x else Join(parts, sep) + sep + x
  {
    if |parts| == 1 {
      assert (parts + [x])[1..] == [x];
    } else if |parts| > 1 {
      assert (parts + [x])[1..] == parts[1..] + [x];
      JoinAppend(parts[1..], x, sep);
    }
  }

  /** The document's text: the elements' renders joined by newlines. */
  function DocumentText(es: seq<Element>): string
  {
    Join(Renders(es), "\n")
  }

  /** Adding an element appends its render on a new line, or makes it the
      whole text of an empty document. */
  lemma DocumentTextAppend(es: seq<Element>, e: Element)
    ensures DocumentText(es + [e]) ==
      if es == [] then Rendered(e) else DocumentText(es) + "\n" + Rendered(e)
  {
    assert (es + [e])[..|es|] == es;
    JoinAppend(Renders(es), Rendered(e), "\n");
  }

  /** An empty document renders as the empty text; one element renders as
      itself, with no newline. */
  lemma DocumentTextSmall(e: Element)
    ensures DocumentText([]) == ""
    ensures DocumentText([e]) == Rendered(e)
  {
    DocumentTextAppend([], e);
  }

  class Document {
    var elements: seq<Element>

    constructor()
      ensures elements == []
    {
      elements := [];
    }

    /** `add_element`. */
    method AddElement(e: Element)
      modifies this
      ensures elements == old(elements) + [e]
    {
      elements := elements + [e];
    }

    /** `render`: the renders collected in a loop, then joined. */
    method Render() returns (out: string)
      ensures out == DocumentText(elements)
    {
      var rendered: seq<string> := [];
      var i := 0;
      while i < |elements|
        invariant 0 <= i <= |elements|
        invariant rendered == Renders(elements[..i])
      {
        assert elements[..i + 1][..i] == elements[..i];
        rendered := rendered + [Rendered(elements[i])];
        i := i + 1;
      }
      assert elements[..i] == elements;
      out := Join(rendered, "\n");
    }
  }

  class DocumentEditor {
    const document: Document

    constructor()
      ensures fresh(document) && document.elements == []
    {
      document := new Document();
    }

    /** `add_text`. */
    method AddText(text: string)
      modifies document
      ensures document.elements == old(document.elements) + [Text(text)]
    {
      document.AddElement(Text(text));
    }

    /** `add_image`. */
    method AddImage(imagePath: string)
      modifies document
      ensures document.elements == old(document.elements) + [Image(imagePath)]
    {
      document.AddElement(Image(imagePath));
    }

    /** `render_doc`. */
    method RenderDoc() returns (out: string)
      ensures out == DocumentText(document.elements)
    {
      out := document.Render();
    }
  }
}
