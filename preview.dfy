/**
 * The preview's JSON exporter (`generateJSON` in the preview component): no title scan and no
 * skipped heading, only headings open a block, `text` joins the paragraph like `paragraph`,
 * and the fallback fails on every non-empty page because it calls `forEach` on a number.
 */
module PreviewJson {
  import opened Wrappers
  import opened Records
  import opened Document
  import opened Columns
  import opened Schema
  import opened Toolbar

  /** The preview's `websiteData`: no `tag` key, a fixed title and the category `Website`. */
  datatype PreviewSite = PreviewSite(title: string, category: string, date: string, content: seq<Block>)

  /** What the fallback throws: `section.columns` is a number, which has no `forEach`. */
  const ColumnsNotIterable := "TypeError: section.columns.forEach is not a function"

  /** The finished blocks and the open block. */
  datatype Grouping = Grouping(content: seq<Block>, cur: Block)

  function PreviewStep(g: Grouping, e: Element): Grouping
    requires WellTyped(e)
  {
    var d := ContentData(e);
    if !Truthy(d) then g
    else if e.kind == "heading" then Grouping(Flush(g.content, g.cur), [("subtitle", d.value)])
    else if e.kind == "paragraph" || e.kind == "text" then g.(cur := AddParagraph(g.cur, e.content.text))
    else if SlotOf(e.kind).Some? then g.(cur := Put(g.cur, SlotOf(e.kind).value, d.value))
    else g.(content := g.content + [[(e.kind, d.value)]])
  }

  function PreviewElements(g: Grouping, col: seq<Element>): Grouping
    requires ElementsWellTyped(col)
    decreases |col|
  {
    if col == [] then g
    else PreviewStep(PreviewElements(g, col[..|col| - 1]), col[|col| - 1])
  }

  /** One column: a fresh open block, the column's elements, then a final flush. */
  function PreviewColumn(content: seq<Block>, col: seq<Element>): seq<Block>
    requires ElementsWellTyped(col)
  {
    var g := PreviewElements(Grouping(content, []), col);
    Flush(g.content, g.cur)
  }

  function PreviewColumns(content: seq<Block>, cols: seq<seq<Element>>): seq<Block>
    requires PageWellTyped(cols)
    decreases |cols|
  {
    if cols == [] then content
    else PreviewColumn(PreviewColumns(content, cols[..|cols| - 1]), cols[|cols| - 1])
  }

  /**
   * The export: the grouped blocks; with none, an empty page gives no content and any other
   * page reaches the failing fallback.
   */
  function PreviewData(sections: seq<Section>, date: string): Result<PreviewSite, string>
    requires WellTypedSections(sections)
  {
    PageColumnsWellTyped(sections);
    var content := PreviewColumns([], PageColumns(sections));
    if content != [] || sections == [] then Ok(PreviewSite(DefaultTitle, "Website", date, content))
    else Err(ColumnsNotIterable)
  }

  // ---------------------------------------------------------------------------------------
  // The loops

  /** One column of the preview's grouping loop. */
  method PreviewColumnLoop(content0: seq<Block>, col: seq<Element>) returns (content: seq<Block>)
    requires ElementsWellTyped(col)
    ensures content == PreviewColumn(content0, col)
  {
    content := content0;
    var cur: Block := [];
    var k := 0;
    while k < |col|
      invariant 0 <= k <= |col|
      invariant ElementsWellTyped(col[..k])
      invariant Grouping(content, cur) == PreviewElements(Grouping(content0, []), col[..k])
    {
      PrefixWellTyped(col, k + 1);
      assert col[..k + 1][..k] == col[..k];
      var e := col[k];
      var d := ContentData(e);
      if d.Some? && d.value != DText("") {
        if e.kind == "heading" {
          if |cur| > 0 {
            content := content + [cur];
          }
          cur := [("subtitle", d.value)];
        } else if e.kind == "paragraph" || e.kind == "text" {
          var p := Get(cur, "paragraph");
          if p.Some? && p.value.DText? && p.value.text != "" {
            cur := Put(cur, "paragraph", DText(p.value.text + " " + e.content.text));
          } else {
            cur := Put(cur, "paragraph", DText(e.content.text));
          }
        } else if e.kind == "image" || e.kind == "image-caption" {
          cur := Put(cur, "image", d.value);
        } else if e.kind == "video" {
          cur := Put(cur, "video", d.value);
        } else if e.kind == "button" {
          cur := Put(cur, "cta", d.value);
        } else if e.kind == "table" {
          cur := Put(cur, "table", d.value);
        } else {
          content := content + [[(e.kind, d.value)]];
        }
      }
      k := k + 1;
    }
    assert col[..k] == col;
    if |cur| > 0 {
      content := content + [cur];
    }
  }

  lemma {:induction false} PreviewColumnsConcat(content: seq<Block>, a: seq<seq<Element>>, b: seq<seq<Element>>)
    requires PageWellTyped(a) && PageWellTyped(b)
    ensures PageWellTyped(a + b)
    ensures PreviewColumns(content, a + b) == PreviewColumns(PreviewColumns(content, a), b)
    decreases |b|
  {
    if b == [] {
      assert a + b == a;
    } else {
      var n := |b| - 1;
      PagePrefixWellTyped(b, n);
      PreviewColumnsConcat(content, a, b[..n]);
      assert (a + b)[..|a + b| - 1] == a + b[..n];
      assert (a + b)[|a + b| - 1] == b[n];
    }
  }

  /** The displayed columns of one section. */
  method PreviewSection(content0: seq<Block>, s: Section) returns (content: seq<Block>)
    requires ElementsWellTyped(s.elements)
    ensures PageWellTyped(SectionColumns(s, ColumnsShown(s)))
    ensures content == PreviewColumns(content0, SectionColumns(s, ColumnsShown(s)))
  {
    SectionColumnsWellTyped(s, ColumnsShown(s));
    content := content0;
    var c := 0;
    while c < s.columns
      invariant 0 <= c <= ColumnsShown(s)
      invariant content == PreviewColumns(content0, SectionColumns(s, c))
    {
      SectionColumnsWellTyped(s, c + 1);
      var col := ColumnView(s, c);
      Snoc(SectionColumns(s, c), col);
      content := PreviewColumnLoop(content, col);
      c := c + 1;
    }
  }

  /** The preview's `generateJSON`: the grouping loop, then the fallback's failure on a non-empty page. */
  method GeneratePreviewJson(sections: seq<Section>, date: string) returns (r: Result<PreviewSite, string>)
    requires WellTypedSections(sections)
    ensures r == PreviewData(sections, date)
  {
    var content: seq<Block> := [];
    var i := 0;
    while i < |sections|
      invariant 0 <= i <= |sections|
      invariant PageWellTyped(PageColumns(sections[..i]))
      invariant content == PreviewColumns([], PageColumns(sections[..i]))
    {
      SectionWellTyped(sections, i);
      content := PreviewSection(content, sections[i]);
      PageColumnsStep(sections, i);
      PreviewColumnsConcat([], PageColumns(sections[..i]), SectionColumns(sections[i], ColumnsShown(sections[i])));
      i := i + 1;
    }
    assert sections[..i] == sections;
    if |content| == 0 && |sections| > 0 {
      // the first section's `columns.forEach` throws
      return Err(ColumnsNotIterable);
    }
    r := Ok(PreviewSite(DefaultTitle, "Website", date, content));
  }
}
