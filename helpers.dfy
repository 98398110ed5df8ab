/**
 * The shared helpers: the default content and style of a freshly made element, and the
 * flat-list HTML exporter, which renders each element as one line and inlines the canvas
 * style into the page's `body` rule.
 */
module Helpers {
  import opened Strings
  import opened Records
  import opened Styles
  import opened Document

  /** What `getElementDefaultProps` hands back. */
  datatype Defaults = Defaults(content: string, style: Style)

  /** The element types that have a table entry. */
  predicate HasDefaults(kind: string)
  {
    kind == "text" || kind == "image" || kind == "button" || kind == "container"
  }

  function TextDefaultStyle(): Style
  {
    [("fontSize", "16px"), ("color", "#333333"), ("fontFamily", "Arial, sans-serif"), ("padding", "10px"),
     ("backgroundColor", "transparent"), ("border", "none")]
  }

  function ImageDefaultStyle(): Style
  {
    [("width", "200px"), ("height", "150px"), ("objectFit", "cover"), ("border", "1px solid #ddd"),
     ("borderRadius", "4px")]
  }

  function ButtonDefaultStyle(): Style
  {
    [("padding", "10px 20px"), ("backgroundColor", "#3498db"), ("color", "white"), ("border", "none"),
     ("borderRadius", "4px"), ("fontSize", "14px"), ("fontWeight", "500"), ("cursor", "pointer")]
  }

  function ContainerDefaultStyle(): Style
  {
    [("width", "200px"), ("height", "150px"), ("backgroundColor", "#f8f9fa"), ("border", "2px dashed #ddd"),
     ("borderRadius", "4px")]
  }

  /** The defaults table, with `{content: '', style: {}}` for every other type. */
  function ElementDefaultProps(kind: string): (r: Defaults)
    ensures !HasDefaults(kind) ==> r == Defaults("", [])
    ensures HasDefaults(kind) ==> |r.style| >= 5
  {
    if kind == "text" then Defaults("Double click to edit", TextDefaultStyle())
    else if kind == "image" then Defaults("https://via.placeholder.com/200x150", ImageDefaultStyle())
    else if kind == "button" then Defaults("Click me", ButtonDefaultStyle())
    else if kind == "container" then Defaults("", ContainerDefaultStyle())
    else Defaults("", [])
  }

  /** One element's line: four spaces and a tag, or `''` for a type without a case. */
  function ExportFragment(e: Element): string
  {
    var s := StyleString(e.style);
    var c := ContentString(e.content);
    if e.kind == "text" then "    <div style=\"" + s + "\">" + c + "</div>"
    else if e.kind == "image" then "    <img src=\"" + c + "\" style=\"" + s + "\" alt=\"Image\" />"
    else if e.kind == "button" then "    <button style=\"" + s + "\">" + c + "</button>"
    else if e.kind == "container" then "    <div style=\"" + s + "\"></div>"
    else ""
  }

  function ExportFragments(elements: seq<Element>): (r: seq<string>)
    ensures |r| == |elements| && forall j :: 0 <= j < |elements| ==> r[j] == ExportFragment(elements[j])
  {
    seq(|elements|, j requires 0 <= j < |elements| => ExportFragment(elements[j]))
  }

  /** The page up to the canvas style, which sits inside the `body` rule. */
  const ExportHead :=
    "<!DOCTYPE html>\n<html lang=\"en\">\n<head>\n    <meta charset=\"UTF-8\">\n" +
    "    <meta name=\"viewport\" content=\"width=device-width, initial-scale=1.0\">\n" +
    "    <title>Generated Website</title>\n    <style>\n        * {\n            margin: 0;\n" +
    "            padding: 0;\n            box-sizing: border-box;\n        }\n        body {\n" +
    "            font-family: Arial, sans-serif;\n            "

  /** From the canvas style to the element lines. */
  const ExportMiddle :=
    "\n            position: relative;\n        }\n    </style>\n</head>\n<body>\n"

  const ExportTail := "\n</body>\n</html>"

  /** `exportToHTML(elements, canvasStyle)`. */
  function ExportHtml(elements: seq<Element>, canvasStyle: Style): string
  {
    ExportHead + StyleString(canvasStyle) + ExportMiddle + Join(ExportFragments(elements), "\n") + ExportTail
  }

  /** The part of an exported page that holds the canvas style, given its length. */
  function CanvasStylePart(html: string, styleLength: nat): string
  {
    if |ExportHead| + styleLength <= |html| then html[|ExportHead|..|ExportHead| + styleLength] else ""
  }

  /** The part of an exported page between `<body>` and `</body>`, given the style's length. */
  function BodyPart(html: string, styleLength: nat): string
  {
    var start := |ExportHead| + styleLength + |ExportMiddle|;
    if start + |ExportTail| <= |html| then html[start..|html| - |ExportTail|] else ""
  }

  // ---------------------------------------------------------------------------------------
  // Properties

  lemma TextDefaultsPlain()
    ensures DistinctKeys(TextDefaultStyle()) && Plain(TextDefaultStyle())
  {
    TextDefaultStylePlainStart();
    TextDefaultStylePlainEnd();
    PlainJoin(TextDefaultStyle(), 3, 6);
  }

  lemma TextDefaultStylePlainStart()
    ensures PlainBetween(TextDefaultStyle(), 0, 3)
  {
  }

  lemma TextDefaultStylePlainEnd()
    ensures PlainBetween(TextDefaultStyle(), 3, 6)
  {
  }

  lemma ImageDefaultsPlain()
    ensures DistinctKeys(ImageDefaultStyle()) && Plain(ImageDefaultStyle())
  {
    ImageDefaultStylePlainStart();
    ImageDefaultStylePlainEnd();
    PlainJoin(ImageDefaultStyle(), 3, 5);
  }

  lemma ImageDefaultStylePlainStart()
    ensures PlainBetween(ImageDefaultStyle(), 0, 3)
  {
  }

  lemma ImageDefaultStylePlainEnd()
    ensures PlainBetween(ImageDefaultStyle(), 3, 5)
  {
  }

  lemma ButtonDefaultsPlain()
    ensures DistinctKeys(ButtonDefaultStyle()) && Plain(ButtonDefaultStyle())
  {
    ButtonDefaultStylePlainStart();
    ButtonDefaultStylePlainEnd();
    PlainJoin(ButtonDefaultStyle(), 4, 8);
  }

  lemma ButtonDefaultStylePlainStart()
    ensures PlainBetween(ButtonDefaultStyle(), 0, 4)
  {
  }

  lemma ButtonDefaultStylePlainEnd()
    ensures PlainBetween(ButtonDefaultStyle(), 4, 8)
  {
  }

  lemma ContainerDefaultsPlain()
    ensures DistinctKeys(ContainerDefaultStyle()) && Plain(ContainerDefaultStyle())
  {
    ContainerDefaultStylePlainStart();
    ContainerDefaultStylePlainEnd();
    PlainJoin(ContainerDefaultStyle(), 3, 5);
  }

  lemma ContainerDefaultStylePlainStart()
    ensures PlainBetween(ContainerDefaultStyle(), 0, 3)
  {
  }

  lemma ContainerDefaultStylePlainEnd()
    ensures PlainBetween(ContainerDefaultStyle(), 3, 5)
  {
  }

  /** Every entry of the table has distinct, plain property names, so its style string parses back. */
  lemma DefaultStyleParses(kind: string)
    ensures DistinctKeys(ElementDefaultProps(kind).style)
    ensures ParseStyle(StyleString(ElementDefaultProps(kind).style)) == ElementDefaultProps(kind).style
  {
    if kind == "text" {
      TextDefaultsPlain();
    } else if kind == "image" {
      ImageDefaultsPlain();
    } else if kind == "button" {
      ButtonDefaultsPlain();
    } else if kind == "container" {
      ContainerDefaultsPlain();
    }
    StyleRoundTrip(ElementDefaultProps(kind).style);
  }

  /** The defaults' content is empty exactly for containers and types without an entry. */
  lemma DefaultContentEmpty(kind: string)
    ensures ElementDefaultProps(kind).content == "" <==> kind == "container" || !HasDefaults(kind)
  {
  }

  /** A line is empty exactly for the types without a case. */
  lemma ExportFragmentEmpty(e: Element)
    ensures ExportFragment(e) == "" <==> !HasDefaults(e.kind)
  {
    if HasDefaults(e.kind) {
      assert ExportFragment(e)[0] == ' ';
    }
  }

  /** An element whose interpolated fields hold no line break. */
  predicate ExportSingleLine(e: Element)
  {
    '\n' !in ContentString(e.content) && '\n' !in StyleString(e.style)
  }

  lemma ExportFragmentOneLine(e: Element)
    requires ExportSingleLine(e)
    ensures '\n' !in ExportFragment(e)
  {
    var s := StyleString(e.style);
    var c := ContentString(e.content);
    if e.kind == "text" {
      FreeOfCat5('\n', "    <div style=\"", s, "\">", c, "</div>");
    } else if e.kind == "image" {
      FreeOfCat5('\n', "    <img src=\"", c, "\" style=\"", s, "\" alt=\"Image\" />");
    } else if e.kind == "button" {
      FreeOfCat5('\n', "    <button style=\"", s, "\">", c, "</button>");
    } else if e.kind == "container" {
      FreeOfCat('\n', "    <div style=\"", s);
      FreeOfCat('\n', "    <div style=\"" + s, "\"></div>");
    }
  }

  /**
   * The page holds the canvas style string inside the `body` rule and, between `<body>` and
   * `</body>`, the element lines joined by line breaks in input order.
   */
  lemma ExportHtmlParts(elements: seq<Element>, canvasStyle: Style)
    ensures CanvasStylePart(ExportHtml(elements, canvasStyle), |StyleString(canvasStyle)|) == StyleString(canvasStyle)
    ensures BodyPart(ExportHtml(elements, canvasStyle), |StyleString(canvasStyle)|) == Join(ExportFragments(elements), "\n")
  {
    PiecesOfCat5(ExportHead, StyleString(canvasStyle), ExportMiddle, Join(ExportFragments(elements), "\n"), ExportTail);
  }

  /** With plain property names the canvas style can be read back from the page. */
  lemma ExportCanvasStyle(elements: seq<Element>, canvasStyle: Style)
    requires Plain(canvasStyle)
    ensures ParseStyle(CanvasStylePart(ExportHtml(elements, canvasStyle), |StyleString(canvasStyle)|)) == canvasStyle
  {
    ExportHtmlParts(elements, canvasStyle);
    StyleRoundTrip(canvasStyle);
  }

  /** With single-line fields, the body splits at line breaks into one line per element, in order. */
  lemma ExportLines(elements: seq<Element>, canvasStyle: Style)
    requires |elements| > 0 && forall j :: 0 <= j < |elements| ==> ExportSingleLine(elements[j])
    ensures Split(BodyPart(ExportHtml(elements, canvasStyle), |StyleString(canvasStyle)|), "\n") == ExportFragments(elements)
  {
    ExportHtmlParts(elements, canvasStyle);
    forall j | 0 <= j < |elements| ensures '\n' !in ExportFragments(elements)[j] {
      ExportFragmentOneLine(elements[j]);
    }
    JoinSplit(ExportFragments(elements), "\n");
  }
}
