/**
 * The snapshot serializer's own strings: the SVG wrapper `nodeToDataURL`
 * builds around the processed clone and the data URL `svgToDataURL`
 * makes of the encoded text (src/util.ts lines 281-311). Serialization
 * (`XMLSerializer`) and `encodeURIComponent` are host calls; their output
 * is taken as given.
 */
module Svg {
  import opened Wrappers
  import Js
  import Urls

  const SvgNamespace := "http://www.w3.org/2000/svg"
  const SvgDataUrlPrefix := "data:image/svg+xml;charset=utf-8,"

  type Attributes = seq<(string, string)>

  /** A DOM node: an element with its attributes in order, or the opaque processed clone. */
  datatype Node =
    | Element(namespace: string, name: string, attributes: Attributes, children: seq<Node>)
    | ProcessedClone(id: nat)

  /** `getAttribute(name)`: the value of the first attribute with that name. */
  function GetAttribute(attributes: Attributes, name: string): Option<string> {
    if attributes == [] then None
    else if attributes[0].0 == name then Some(attributes[0].1)
    else GetAttribute(attributes[1..], name)
  }

  /** `setAttribute(name, value)`: replaces the value of an existing attribute, otherwise appends one. */
  function SetAttribute(attributes: Attributes, name: string, value: string): (r: Attributes)
    ensures GetAttribute(r, name) == Some(value)
    ensures forall other :: other != name ==> GetAttribute(r, other) == GetAttribute(attributes, other)
    ensures |r| == |attributes| + (if GetAttribute(attributes, name).None? then 1 else 0)
    ensures GetAttribute(attributes, name).None? ==> r == attributes + [(name, value)]
  {
    if attributes == [] then [(name, value)]
    else if attributes[0].0 == name then [(name, value)] + attributes[1..]
    else
      var r := [attributes[0]] + SetAttribute(attributes[1..], name, value);
      assert r[1..] == SetAttribute(attributes[1..], name, value);
      assert attributes == [attributes[0]] + attributes[1..];
      r
  }

  /** The `<svg>` attributes: width, height and a viewBox from the origin to that size. */
  function SvgAttributes(widthText: string, heightText: string): (r: Attributes)
    ensures |r| == 3
    ensures forall n :: GetAttribute(r, n).Some? <==> n in {"width", "height", "viewBox"}
    ensures r == [("width", widthText), ("height", heightText), ("viewBox", "0 0 " + widthText + " " + heightText)]
  {
    var a := SetAttribute([], "width", widthText);
    var b := SetAttribute(a, "height", heightText);
    SetAttribute(b, "viewBox", "0 0 " + widthText + " " + heightText)
  }

  /** The `<foreignObject>` attributes: the whole viewport, external resources required. */
  function ForeignObjectAttributes(): (r: Attributes)
    ensures |r| == 5
    ensures forall n :: GetAttribute(r, n).Some? <==> n in {"width", "height", "x", "y", "externalResourcesRequired"}
    ensures r == [("width", "100%"), ("height", "100%"), ("x", "0"), ("y", "0"), ("externalResourcesRequired", "true")]
  {
    var a := SetAttribute([], "width", "100%");
    var b := SetAttribute(a, "height", "100%");
    var c := SetAttribute(b, "x", "0");
    var d := SetAttribute(c, "y", "0");
    SetAttribute(d, "externalResourcesRequired", "true")
  }

  /**
   * The tree `nodeToDataURL` serializes: an `<svg>` whose only child is a
   * `<foreignObject>` whose only child is the clone. `widthText` and
   * `heightText` are the template-literal texts of the two numbers.
   */
  function Wrap(clone: Node, widthText: string, heightText: string): (svg: Node)
    ensures svg.Element? && svg.namespace == SvgNamespace && svg.name == "svg"
    ensures GetAttribute(svg.attributes, "width") == Some(widthText)
    ensures GetAttribute(svg.attributes, "height") == Some(heightText)
    ensures GetAttribute(svg.attributes, "viewBox") == Some("0 0 " + widthText + " " + heightText)
    ensures |svg.attributes| == 3
    ensures forall n :: GetAttribute(svg.attributes, n).Some? <==> n in {"width", "height", "viewBox"}
    ensures svg.attributes == [("width", widthText), ("height", heightText), ("viewBox", "0 0 " + widthText + " " + heightText)]
    ensures |svg.children| == 1 && svg.children[0].Element?
    ensures var fo := svg.children[0];
      fo.namespace == SvgNamespace && fo.name == "foreignObject" && fo.children == [clone]
      && GetAttribute(fo.attributes, "width") == Some("100%")
      && GetAttribute(fo.attributes, "height") == Some("100%")
      && GetAttribute(fo.attributes, "x") == Some("0")
      && GetAttribute(fo.attributes, "y") == Some("0")
      && GetAttribute(fo.attributes, "externalResourcesRequired") == Some("true")
      && |fo.attributes| == 5
      && (forall n :: GetAttribute(fo.attributes, n).Some? <==> n in {"width", "height", "x", "y", "externalResourcesRequired"})
      && fo.attributes == [("width", "100%"), ("height", "100%"), ("x", "0"), ("y", "0"), ("externalResourcesRequired", "true")]
  {
    var foreignObject := Element(SvgNamespace, "foreignObject", ForeignObjectAttributes(), [clone]);
    Element(SvgNamespace, "svg", SvgAttributes(widthText, heightText), [foreignObject])
  }

  /**
   * The viewBox agrees with the declared size: read back as four
   * space-separated fields it is `0 0 width height`.
   */
  lemma ViewBoxMatchesSize(widthText: string, heightText: string)
    requires ' ' !in widthText && ' ' !in heightText
    ensures Js.Split(GetAttribute(Wrap(ProcessedClone(0), widthText, heightText).attributes, "viewBox").value, ' ')
         == ["0", "0", widthText, heightText]
  {
    ViewBoxFields(widthText, heightText);
  }

  lemma ViewBoxFields(widthText: string, heightText: string)
    requires ' ' !in widthText && ' ' !in heightText
    ensures Js.Split("0 0 " + widthText + " " + heightText, ' ') == ["0", "0", widthText, heightText]
  {
    var viewBox := "0 0 " + widthText + " " + heightText;
    assert viewBox == "0" + [' '] + ("0" + [' '] + (widthText + [' '] + heightText));
    Js.SplitAtFirst("0", "0" + [' '] + (widthText + [' '] + heightText), ' ');
    Js.SplitAtFirst("0", widthText + [' '] + heightText, ' ');
    Js.SplitAtFirst(widthText, heightText, ' ');
    Js.SplitWithout(heightText, ' ');
  }

  /** A 100 x 50 node gives `width="100" height="50" viewBox="0 0 100 50"`. */
  lemma WrapExample(clone: Node)
    ensures var svg := Wrap(clone, Js.IntegerText(100), Js.IntegerText(50));
      GetAttribute(svg.attributes, "width") == Some("100")
      && GetAttribute(svg.attributes, "height") == Some("50")
      && GetAttribute(svg.attributes, "viewBox") == Some("0 0 100 50")
  {
    assert Js.NaturalText(1) == "1" && Js.NaturalText(5) == "5";
    assert Js.NaturalText(10) == "10";
    assert Js.IntegerText(100) == "100";
    assert Js.IntegerText(50) == "50";
    assert "0 0 " + "100" + " " + "50" == "0 0 100 50";
  }

  /**
   * `svgToDataURL` given the encoded serialization: the result is a data
   * URL, and since `encodeURIComponent` leaves no comma, parsing its
   * content gives the encoded text back.
   */
  function SvgToDataUrl(encoded: string): (url: string)
    ensures SvgDataUrlPrefix <= url && url[|SvgDataUrlPrefix|..] == encoded
    ensures Urls.IsDataUrl(url)
    ensures ',' !in encoded ==> Urls.ParseDataUrlContent(url) == Some(encoded)
  {
    var head := "data:image/svg+xml;charset=utf-8";
    assert SvgDataUrlPrefix + encoded == head + [','] + encoded;
    Urls.ParseAfterFirstComma(head, encoded);
    Js.SplitWithout(encoded, ',');
    SvgDataUrlPrefix + encoded
  }
}
