/**
 * The preview's HTML export (`generateHTML`) and the style it renders elements with: sections
 * become `<section>` blocks holding one flex row of columns, each column the fragments of its
 * elements in display order, with the `position` property dropped from every element style.
 */
module PreviewHtml {
  import opened Wrappers
  import opened Strings
  import opened Records
  import opened Styles
  import opened Document
  import opened Columns

  /** `{...element.style}` with `position` deleted, as the preview renders it. */
  function RenderStyle(s: Style): (r: Style)
    ensures forall k :: Get(r, k) == if k == "position" then None else Get(s, k)
  {
    var r := Without(s, "position");
    assert forall k :: Get(r, k) == if k == "position" then None else Get(s, k) by {
      forall k ensures Get(r, k) == if k == "position" then None else Get(s, k) {
        GetWithout(s, "position", k);
      }
    }
    r
  }

  /** The element types the HTML export has a case for. */
  predicate HtmlKind(kind: string)
  {
    kind == "heading" || kind == "text" || kind == "paragraph" || kind == "image" || kind == "button" || kind == "video"
  }

  /** A button's `onclick` attribute: none without a link, else a new window or a navigation. */
  function ButtonAction(e: Element): (r: string)
    ensures r == "" <==> e.link == ""
  {
    if e.link == "" then ""
    else
      var r := "onclick=\"window." + (if e.openInNewTab then "open" else "location.href=") + "('" + e.link + "'" +
               (if e.openInNewTab then ", \"_blank\"" else "") + ")\"";
      assert r[0] == 'o';
      r
  }

  /** One element's line of HTML, indented by eight spaces; `''` for a type without a case. */
  function ElementHtml(e: Element): string
  {
    var s := ElementStyleString(e.style);
    var c := ContentString(e.content);
    if e.kind == "heading" then "        <h1 style=\"" + s + "\">" + c + "</h1>"
    else if e.kind == "text" then "        <span style=\"" + s + "\">" + c + "</span>"
    else if e.kind == "paragraph" then "        <p style=\"" + s + "\">" + c + "</p>"
    else if e.kind == "image" then
      "        <img src=\"" + c + "\" alt=\"" + (if e.alt != "" then e.alt else "Image") + "\" style=\"" + s + "\" />"
    else if e.kind == "button" then "        <button style=\"" + s + "\" " + ButtonAction(e) + ">" + c + "</button>"
    else if e.kind == "video" then VideoLine(s, c)
    else ""
  }

  /**
   * A video's line: the embed address in an `iframe` inside a styled `div`. The literal after
   * the address is written in two pieces, `allow` and `fullscreen`, only so that the verifier
   * checks each piece for line breaks cheaply; together they spell `allowfullscreen`.
   */
  function VideoLine(s: string, c: string): string
  {
    "        <div style=\"" + s + "\"><iframe src=\"" + c + "\" frameborder=\"0\" allow" + "fullscreen></iframe></div>"
  }

  function Fragments(col: seq<Element>): (r: seq<string>)
    ensures |r| == |col| && forall j :: 0 <= j < |col| ==> r[j] == ElementHtml(col[j])
  {
    seq(|col|, j requires 0 <= j < |col| => ElementHtml(col[j]))
  }

  /** One column: a `div` of the given width around its element lines. */
  function ColumnHtml(width: string, col: seq<Element>): string
  {
    "      <div style=\"width: " + width + "; padding: 20px;\">\n" + Join(Fragments(col), "\n") + "\n      </div>"
  }

  function ColumnsHtml(width: string, cols: seq<seq<Element>>): (r: seq<string>)
    ensures |r| == |cols| && forall c :: 0 <= c < |cols| ==> r[c] == ColumnHtml(width, cols[c])
  {
    seq(|cols|, c requires 0 <= c < |cols| => ColumnHtml(width, cols[c]))
  }

  /**
   * One section: its style string on the `section` tag and its displayed columns in a flex row.
   * `width` is the formatted `100 / columns` percentage.
   */
  function SectionHtml(s: Section, width: string): string
  {
    var cols := ColumnsHtml(width, SectionColumns(s, ColumnsShown(s)));
    "    <section style=\"" + StyleString(s.style) + "\">\n      <div style=\"display: flex; width: 100%;\">\n" +
    Join(cols, "\n") + "\n      </div>\n    </section>"
  }

  const PageHead :=
    "<!DOCTYPE html>\n<html lang=\"en\">\n<head>\n    <meta charset=\"UTF-8\">\n" +
    "    <meta name=\"viewport\" content=\"width=device-width, initial-scale=1.0\">\n" +
    "    <title>Generated Website</title>\n    <style>\n" +
    "        * { margin: 0; padding: 0; box-sizing: border-box; }\n" +
    "        body { font-family: Arial, sans-serif; line-height: 1.6; }\n" +
    "        section { width: 100%; }\n        button { cursor: pointer; }\n" +
    "        img { max-width: 100%; height: auto; }\n    </style>\n</head>\n<body>\n"

  const PageTail := "\n</body>\n</html>"

  /**
   * The whole page; `widthOf(columns)` is the column width `${100 / columns}%` as JavaScript
   * prints it, percent sign included.
   */
  function PageHtml(sections: seq<Section>, widthOf: int -> string): string
  {
    var parts := seq(|sections|, i requires 0 <= i < |sections| => SectionHtml(sections[i], widthOf(sections[i].columns)));
    PageHead + Join(parts, "\n") + PageTail
  }

  // ---------------------------------------------------------------------------------------
  // Properties

  /** An element whose interpolated fields hold no line break. */
  predicate SingleLine(e: Element)
  {
    '\n' !in ContentString(e.content) && '\n' !in ElementStyleString(e.style) && '\n' !in e.alt && '\n' !in e.link
  }

  /** A fragment is empty exactly for the types without a case. */
  lemma ElementHtmlEmpty(e: Element)
    ensures ElementHtml(e) == "" <==> !HtmlKind(e.kind)
  {
    if HtmlKind(e.kind) {
      assert ElementHtml(e)[0] == ' ';
    }
  }

  lemma ButtonActionOneLine(e: Element)
    requires '\n' !in e.link
    ensures '\n' !in ButtonAction(e)
  {
    if e.link != "" {
      var o := if e.openInNewTab then "open" else "location.href=";
      var b := if e.openInNewTab then ", \"_blank\"" else "";
      FreeOfCat5('\n', "onclick=\"window." + o, "('", e.link, "'", b);
      FreeOfCat('\n', "onclick=\"window." + o + "('" + e.link + "'" + b, ")\"");
    }
  }

  /** The text fragments: a tag around the style string and the content. */
  lemma TextOneLine(e: Element)
    requires SingleLine(e) && (e.kind == "heading" || e.kind == "text" || e.kind == "paragraph")
    ensures '\n' !in ElementHtml(e)
  {
    var s := ElementStyleString(e.style);
    var c := ContentString(e.content);
    if e.kind == "heading" {
      FreeOfCat5('\n', "        <h1 style=\"", s, "\">", c, "</h1>");
    } else if e.kind == "text" {
      FreeOfCat5('\n', "        <span style=\"", s, "\">", c, "</span>");
    } else {
      FreeOfCat5('\n', "        <p style=\"", s, "\">", c, "</p>");
    }
  }

  lemma ImageOneLine(e: Element)
    requires SingleLine(e) && e.kind == "image"
    ensures '\n' !in ElementHtml(e)
  {
    var s := ElementStyleString(e.style);
    var c := ContentString(e.content);
    var a := if e.alt != "" then e.alt else "Image";
    FreeOfCat5('\n', "        <img src=\"", c, "\" alt=\"", a, "\" style=\"");
    FreeOfCat('\n', "        <img src=\"" + c + "\" alt=\"" + a + "\" style=\"", s);
    FreeOfCat('\n', "        <img src=\"" + c + "\" alt=\"" + a + "\" style=\"" + s, "\" />");
  }

  lemma ButtonOneLine(e: Element)
    requires SingleLine(e) && e.kind == "button"
    ensures '\n' !in ElementHtml(e)
  {
    var s := ElementStyleString(e.style);
    var c := ContentString(e.content);
    ButtonActionOneLine(e);
    FreeOfCat5('\n', "        <button style=\"", s, "\" ", ButtonAction(e), ">");
    FreeOfCat('\n', "        <button style=\"" + s + "\" " + ButtonAction(e) + ">", c);
    FreeOfCat('\n', "        <button style=\"" + s + "\" " + ButtonAction(e) + ">" + c, "</button>");
  }

  lemma VideoOneLine(e: Element)
    requires SingleLine(e) && e.kind == "video"
    ensures '\n' !in ElementHtml(e)
  {
    VideoLineOneLine(ElementStyleString(e.style), ContentString(e.content));
  }

  lemma VideoLineOneLine(s: string, c: string)
    requires '\n' !in s && '\n' !in c
    ensures '\n' !in VideoLine(s, c)
  {
    FreeOfCat5('\n', "        <div style=\"", s, "\"><iframe src=\"", c, "\" frameborder=\"0\" allow");
    FreeOfCat('\n', "        <div style=\"" + s + "\"><iframe src=\"" + c + "\" frameborder=\"0\" allow",
      "fullscreen></iframe></div>");
  }

  /** A fragment holds no line break when the element's fields hold none. */
  lemma ElementHtmlOneLine(e: Element)
    requires SingleLine(e)
    ensures '\n' !in ElementHtml(e)
  {
    if e.kind == "heading" || e.kind == "text" || e.kind == "paragraph" {
      TextOneLine(e);
    } else if e.kind == "image" {
      ImageOneLine(e);
    } else if e.kind == "button" {
      ButtonOneLine(e);
    } else if e.kind == "video" {
      VideoOneLine(e);
    }
  }

  /**
   * With no line break inside the elements' fields, the body of a column splits at line
   * breaks back into one fragment per element, in display order.
   */
  lemma ColumnLines(col: seq<Element>)
    requires |col| > 0 && forall j :: 0 <= j < |col| ==> SingleLine(col[j])
    ensures Split(Join(Fragments(col), "\n"), "\n") == Fragments(col)
  {
    forall j | 0 <= j < |col| ensures '\n' !in Fragments(col)[j] {
      ElementHtmlOneLine(col[j]);
    }
    JoinSplit(Fragments(col), "\n");
  }

  /** Each displayed column is rendered in display order, so a column shows its `ColumnView`. */
  lemma SectionShowsColumns(s: Section, width: string, c: nat)
    requires c < ColumnsShown(s)
    ensures ColumnsHtml(width, SectionColumns(s, ColumnsShown(s)))[c] == ColumnHtml(width, ColumnView(s, c))
    ensures |ColumnsHtml(width, SectionColumns(s, ColumnsShown(s)))| == ColumnsShown(s)
  {
  }
}
