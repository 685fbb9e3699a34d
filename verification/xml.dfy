/**
 * The XML documents the builders produce, as element trees. Text serialisation (escaping,
 * pretty-printing, number formatting) is left abstract: a text node keeps the value that the
 * builder passed to `.txt(...)`, with numbers kept as numbers.
 */
module Xml {
  import opened Wrappers

  /** The value given to `.txt(...)`: a string, or a number interpolated with `${...}`. */
  datatype Text = Chars(chars: string) | Integer(n: int) | Decimal(x: real)

  datatype Attribute = Attribute(name: string, value: string)

  /** An element: its name, its attributes in insertion order, its child elements in order, and its text node if `.txt` was called. */
  datatype Element = Element(name: string, attributes: seq<Attribute>, children: seq<Element>, text: Option<Text>)

  /** The XML declaration and the root element. */
  datatype Document = Document(version: string, encoding: string, standalone: bool, root: Element)

  /** `create({ version: '1.0', encoding: 'UTF-8', standalone: true })` followed by the root element. */
  function Standalone(root: Element): (d: Document)
    ensures d.version == "1.0" && d.encoding == "UTF-8" && d.standalone && d.root == root
  {
    Document("1.0", "UTF-8", true, root)
  }

  /** An element with neither attributes nor content: `.ele(name)`. */
  function Empty(name: string): Element {
    Element(name, [], [], None)
  }

  /** `.ele(name).txt(t)`. */
  function WithText(name: string, t: Text): Element {
    Element(name, [], [], Some(t))
  }

  /** `.ele(name).txt(s)` for a string `s`. */
  function StringElement(name: string, s: string): Element {
    WithText(name, Chars(s))
  }

  /** The elements `es` carry the names `ns`, in order. */
  predicate NamedAs(es: seq<Element>, ns: seq<string>) {
    |es| == |ns| && forall i :: 0 <= i < |es| ==> es[i].name == ns[i]
  }

  /** Naming carries over to concatenation. */
  lemma NamedAsConcat(a: seq<Element>, na: seq<string>, b: seq<Element>, nb: seq<string>)
    requires NamedAs(a, na) && NamedAs(b, nb)
    ensures NamedAs(a + b, na + nb)
  {
  }

  /** The value of the first attribute called `name`, as xmlbuilder2 reads it back. */
  function AttributeValue(attributes: seq<Attribute>, name: string): Option<string> {
    if attributes == [] then None
    else if attributes[0].name == name then Some(attributes[0].value)
    else AttributeValue(attributes[1..], name)
  }

  /**
   * A value is read back exactly when some attribute has the name, and it is the value of the
   * first attribute with that name.
   */
  lemma {:induction false} AttributeValueFirst(attributes: seq<Attribute>, name: string)
    ensures var v := AttributeValue(attributes, name);
            && (v.Some? <==> exists i :: 0 <= i < |attributes| && attributes[i].name == name)
            && (v.Some? ==> exists i :: 0 <= i < |attributes| && attributes[i] == Attribute(name, v.value)
                                       && forall j :: 0 <= j < i ==> attributes[j].name != name)
  {
    if attributes != [] && attributes[0].name != name {
      AttributeValueFirst(attributes[1..], name);
      assert forall i :: 1 <= i < |attributes| ==> attributes[i] == attributes[1..][i - 1];
      var v := AttributeValue(attributes, name);
      if v.Some? {
        var i :| 0 <= i < |attributes| - 1 && attributes[1..][i] == Attribute(name, v.value)
                 && forall j :: 0 <= j < i ==> attributes[1..][j].name != name;
        assert attributes[i + 1] == Attribute(name, v.value);
      }
    } else if attributes != [] {
      assert attributes[0] == Attribute(name, attributes[0].value);
    }
  }

  /** An attribute that no earlier attribute shares a name with is the one read back under its name. */
  lemma {:induction false} FirstAttribute(attributes: seq<Attribute>, i: nat)
    requires i < |attributes|
    requires forall j :: 0 <= j < i ==> attributes[j].name != attributes[i].name
    ensures AttributeValue(attributes, attributes[i].name) == Some(attributes[i].value)
  {
    if i > 0 {
      FirstAttribute(attributes[1..], i - 1);
    }
  }

  /** `b.toString()` for a JavaScript boolean. */
  function BoolText(b: bool): string {
    if b then "true" else "false"
  }
}
