// The parts of xml.etree.ElementTree the OpenDRIVE readers use: an element
// with its tag, attributes and child elements, get(name, default),
// find(tag) (the first direct child with the tag) and findall(tag) (every
// direct child with the tag, in document order), and float()/int() of an
// attribute string.

module XmlTree {
  import opened Common
  import opened Dicts
  import AttributeValues

  datatype Element = Element(tag: string, attributes: Dict<string>, children: seq<Element>)

  /** The outcome of ET.parse: a root element, or a file that cannot be read or is not well-formed XML. */
  datatype Document = Parsed(root: Element) | Unreadable | Malformed

  /** e.get(name). */
  function Attribute(e: Element, name: string): Option<string>
  {
    Get(e.attributes, name)
  }

  /** e.get(name, default). */
  function AttributeOr(e: Element, name: string, default: string): string
  {
    GetOr(e.attributes, name, default)
  }

  /** float(e.get(name, default)); None where float() raises. */
  function FloatAttribute(e: Element, name: string, default: string): Option<real>
  {
    AttributeValues.ParseFloatString(AttributeOr(e, name, default))
  }

  /** int(e.get(name, default)); None where int() raises. */
  function IntAttribute(e: Element, name: string, default: string): Option<int>
  {
    AttributeValues.ParseIntString(AttributeOr(e, name, default))
  }

  /** The position of the first child with the tag, |children| when there is none. */
  function FirstWithTag(children: seq<Element>, tag: string): (k: nat)
    ensures k <= |children|
    ensures forall i :: 0 <= i < k ==> children[i].tag != tag
    ensures k < |children| ==> children[k].tag == tag
  {
    if children == [] then 0
    else if children[0].tag == tag then 0
    else 1 + FirstWithTag(children[1..], tag)
  }

  /** e.find(tag). */
  function Find(e: Element, tag: string): (r: Option<Element>)
    ensures r.None? <==> forall i :: 0 <= i < |e.children| ==> e.children[i].tag != tag
    ensures r.Some? ==> r.value.tag == tag && r.value in e.children
  {
    var k := FirstWithTag(e.children, tag);
    if k < |e.children| then Some(e.children[k]) else None
  }

  /** The children carrying the tag, in order. */
  function WithTag(children: seq<Element>, tag: string): seq<Element>
  {
    if children == [] then []
    else WithTag(children[..|children| - 1], tag)
         + (if children[|children| - 1].tag == tag then [children[|children| - 1]] else [])
  }

  /** e.findall(tag). */
  function FindAll(e: Element, tag: string): seq<Element>
  {
    WithTag(e.children, tag)
  }

  /** findall keeps exactly the children with the tag, and no more of them than there are children. */
  lemma {:induction false} WithTagSpec(children: seq<Element>, tag: string)
    ensures |WithTag(children, tag)| <= |children|
    ensures forall c :: c in WithTag(children, tag) <==> c in children && c.tag == tag
  {
    if children != [] {
      var init := children[..|children| - 1];
      WithTagSpec(init, tag);
      assert children == init + [children[|children| - 1]];
    }
  }

  /** float("0"): the default every numeric attribute of the readers falls back to. */
  lemma ZeroParses()
    ensures AttributeValues.ParseFloatString("0") == Some(0.0)
  {
    assert AttributeValues.DigitPartValue("0") == 0 by { assert "0"[..0] == ""; }
    AttributeValues.DigitsFloat("0");
  }

  /** An absent attribute parses as its default. */
  lemma AbsentAttributeIsZero(e: Element, name: string)
    requires Attribute(e, name).None?
    ensures FloatAttribute(e, name, "0") == Some(0.0)
  {
    ZeroParses();
  }
}
