/** The element tree that `xml.etree.ElementTree` builds before it is
    serialised: a tag, ordered attributes, optional text and child elements.
    The text is whatever value the writer assigned to `.text`; turning it
    into characters is the serialiser's business. */
module XmlTree {
  import opened Wrappers
  import opened Values

  datatype Element = Element(tag: string, attrs: seq<(string, string)>, text: Option<Value>, children: seq<Element>)

  /** `ET.SubElement(parent, tag)` with nothing set yet. */
  function Empty(tag: string): Element
  {
    Element(tag, [], None, [])
  }

  /** `ET.SubElement(parent, tag).text = text` */
  function TextElement(tag: string, text: Value): Element
  {
    Element(tag, [], Some(text), [])
  }

  /** `parent` after `SubElement` appended `child` as its last child. */
  function Append(parent: Element, child: Element): (r: Element)
    ensures r.children == parent.children + [child]
    ensures r.tag == parent.tag && r.attrs == parent.attrs && r.text == parent.text
  {
    parent.(children := parent.children + [child])
  }

  /** The tags of a list of elements, in order. */
  function Tags(elements: seq<Element>): (tags: seq<string>)
    ensures |tags| == |elements|
    ensures forall i :: 0 <= i < |elements| ==> tags[i] == elements[i].tag
  {
    seq(|elements|, i requires 0 <= i < |elements| => elements[i].tag)
  }
}
