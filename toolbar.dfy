/**
 * The toolbar's JSON exporter (`generateJSON`): it picks the page title from the first
 * non-blank heading, groups each column's elements into content blocks headed by a heading or
 * text element, and falls back to one block per element when grouping produced nothing.
 */
module Toolbar {
  import opened Wrappers
  import opened Strings
  import opened Records
  import opened Document
  import opened Columns
  import opened Schema

  const DefaultTitle := "Generated Website"

  /** The `websiteData` object: title, category, date, tag and the content blocks. */
  datatype Website = Website(title: string, category: string, date: string, tag: string, content: seq<Block>)

  // ---------------------------------------------------------------------------------------
  // The title scan

  /** A heading whose text is not blank. */
  predicate IsTitleHeading(e: Element)
  {
    e.kind == "heading" && e.content.Str? && !IsBlank(e.content.text)
  }

  /** The trimmed content of the first title heading of a column. */
  function ColumnTitle(col: seq<Element>): Option<string>
    decreases |col|
  {
    if col == [] then None
    else
      match ColumnTitle(col[..|col| - 1])
      case Some(t) => Some(t)
      case None =>
        var e := col[|col| - 1];
        if IsTitleHeading(e) then Some(Trim(e.content.text)) else None
  }

  /** The title of the first column holding a title heading. */
  function PageTitle(cols: seq<seq<Element>>): Option<string>
    decreases |cols|
  {
    if cols == [] then None
    else
      match PageTitle(cols[..|cols| - 1])
      case Some(t) => Some(t)
      case None => ColumnTitle(cols[|cols| - 1])
  }

  // ---------------------------------------------------------------------------------------
  // Grouping into blocks

  /** The state of the block grouping: finished blocks, the open block, and the skip flag. */
  datatype Acc = Acc(content: seq<Block>, cur: Block, skip: bool)

  /** The state between columns: finished blocks and the skip flag. */
  datatype Out = Out(content: seq<Block>, skip: bool)

  /** The element the scan took its title from, skipped once: a heading whose trimmed text is the title. */
  predicate Skips(skip: bool, e: Element, title: string)
  {
    skip && e.kind == "heading" && e.content.Str? && Trim(e.content.text) == title
  }

  /** Close the open block: it joins the output when it has at least one key. */
  function Flush(content: seq<Block>, cur: Block): seq<Block>
  {
    if |cur| > 0 then content + [cur] else content
  }

  /** A paragraph joins an open block's non-empty paragraph with a space, or becomes it. */
  function AddParagraph(cur: Block, text: string): Block
  {
    var p := Get(cur, "paragraph");
    if p.Some? && p.value.DText? && p.value.text != "" then Put(cur, "paragraph", DText(p.value.text + " " + text))
    else Put(cur, "paragraph", DText(text))
  }

  /** The block key a non-heading, non-paragraph element is stored under in the open block, if any. */
  function SlotOf(kind: string): Option<string>
  {
    if kind == "image" || kind == "image-caption" then Some("image")
    else if kind == "video" then Some("video")
    else if kind == "button" then Some("cta")
    else if kind == "table" then Some("table")
    else None
  }

  /** One element of the grouping pass. */
  function GroupStep(a: Acc, e: Element, title: string): Acc
    requires WellTyped(e)
  {
    if Skips(a.skip, e, title) then a.(skip := false)
    else
      var d := ContentData(e);
      if !Truthy(d) then a
      else if e.kind == "heading" || e.kind == "text" then Acc(Flush(a.content, a.cur), [("subtitle", d.value)], a.skip)
      else if e.kind == "paragraph" then a.(cur := AddParagraph(a.cur, e.content.text))
      else if SlotOf(e.kind).Some? then a.(cur := Put(a.cur, SlotOf(e.kind).value, d.value))
      else a.(content := a.content + [[(e.kind, d.value)]])
  }

  function GroupElements(a: Acc, col: seq<Element>, title: string): Acc
    requires ElementsWellTyped(col)
    decreases |col|
  {
    if col == [] then a
    else GroupStep(GroupElements(a, col[..|col| - 1], title), col[|col| - 1], title)
  }

  /** One column: a fresh open block, the column's elements, then a final flush. */
  function GroupColumn(o: Out, col: seq<Element>, title: string): Out
    requires ElementsWellTyped(col)
  {
    var a := GroupElements(Acc(o.content, [], o.skip), col, title);
    Out(Flush(a.content, a.cur), a.skip)
  }

  function GroupColumns(o: Out, cols: seq<seq<Element>>, title: string): Out
    requires PageWellTyped(cols)
    decreases |cols|
  {
    if cols == [] then o
    else GroupColumn(GroupColumns(o, cols[..|cols| - 1], title), cols[|cols| - 1], title)
  }

  // ---------------------------------------------------------------------------------------
  // The fallback: one block per element

  function FallbackStep(o: Out, e: Element, title: string): Out
    requires WellTyped(e)
  {
    if Skips(o.skip, e, title) then o.(skip := false)
    else
      var d := ContentData(e);
      if !Truthy(d) then o
      else o.(content := o.content + [[(if e.kind == "text" then "subtitle" else e.kind, d.value)]])
  }

  function FallbackElements(o: Out, col: seq<Element>, title: string): Out
    requires ElementsWellTyped(col)
    decreases |col|
  {
    if col == [] then o
    else FallbackStep(FallbackElements(o, col[..|col| - 1], title), col[|col| - 1], title)
  }

  function FallbackColumns(o: Out, cols: seq<seq<Element>>, title: string): Out
    requires PageWellTyped(cols)
    decreases |cols|
  {
    if cols == [] then o
    else FallbackElements(FallbackColumns(o, cols[..|cols| - 1], title), cols[|cols| - 1], title)
  }

  // ---------------------------------------------------------------------------------------
  // The whole export

  function TitleOf(t: Option<string>): string
  {
    if t.Some? then t.value else DefaultTitle
  }

  /** The result of the grouping pass over the whole page, starting to skip when a title was found. */
  function Grouped(sections: seq<Section>): Out
    requires WellTypedSections(sections)
  {
    PageColumnsWellTyped(sections);
    var cols := PageColumns(sections);
    var t := PageTitle(cols);
    GroupColumns(Out([], t.Some?), cols, TitleOf(t))
  }

  /**
   * The exported object: the title, then the grouped blocks, or the per-element fallback
   * (continuing with the skip flag the grouping pass left) when grouping produced none.
   */
  function WebsiteData(sections: seq<Section>, date: string): Website
    requires WellTypedSections(sections)
  {
    PageColumnsWellTyped(sections);
    var cols := PageColumns(sections);
    var title := TitleOf(PageTitle(cols));
    var main := Grouped(sections);
    var content := if main.content != [] then main.content
                   else FallbackColumns(Out([], main.skip), cols, title).content;
    Website(title, "Technology", date, "website-content", content)
  }

  // ---------------------------------------------------------------------------------------
  // The bulk e-mail request built from the export

  /** The body of the `sendEmail` request. */
  datatype EmailRequest = EmailRequest(title: string, link: string, des: string, subs: string)

  /** A block whose paragraph is a string that is not blank. */
  predicate HasParagraph(b: Block)
  {
    var p := Get(b, "paragraph");
    p.Some? && p.value.DText? && !IsBlank(p.value.text)
  }

  /** `content.find(...)`: the first block with a non-blank paragraph. */
  function FirstParagraphBlock(content: seq<Block>): (r: Option<Block>)
    ensures r.None? <==> forall i :: 0 <= i < |content| ==> !HasParagraph(content[i])
    ensures r.Some? ==> exists i :: 0 <= i < |content| && content[i] == r.value && HasParagraph(r.value) &&
                                    forall j :: 0 <= j < i ==> !HasParagraph(content[j])
  {
    if content == [] then None
    else if HasParagraph(content[0]) then Some(content[0])
    else
      var r := FirstParagraphBlock(content[1..]);
      assert forall i :: 1 <= i < |content| ==> content[i] == content[1..][i - 1];
      r
  }

  /**
   * The request `sendEmail` posts, or `None` when no block has a paragraph and nothing is
   * sent. `genLink` is the configured site address the link is built on.
   */
  function EmailPayload(w: Website, genLink: string): Option<EmailRequest>
  {
    match FirstParagraphBlock(w.content)
    case None => None
    case Some(b) =>
      Some(EmailRequest(w.title, genLink + "/?=" + EncodeURIComponent(w.title),
                        Trim(Get(b, "paragraph").value.text), "subscriber"))
  }

  // ---------------------------------------------------------------------------------------
  // The loops

  lemma Snoc<T>(xs: seq<T>, x: T)
    ensures (xs + [x])[..|xs|] == xs && (xs + [x])[|xs|] == x && |xs + [x]| - 1 == |xs|
  {
  }

  lemma PrefixWellTyped(col: seq<Element>, k: nat)
    requires ElementsWellTyped(col) && k <= |col|
    ensures ElementsWellTyped(col[..k])
  {
    forall e | e in col[..k] ensures WellTyped(e) {
      var j :| 0 <= j < k && col[..k][j] == e;
      assert col[j] == e;
    }
  }

  lemma PagePrefixWellTyped(cols: seq<seq<Element>>, k: nat)
    requires PageWellTyped(cols) && k <= |cols|
    ensures PageWellTyped(cols[..k])
  {
    forall col | col in cols[..k] ensures ElementsWellTyped(col) {
      var j :| 0 <= j < k && cols[..k][j] == col;
      assert cols[j] == col;
    }
  }

  /** The innermost title loop: the first title heading of one column, then `break`. */
  method ColumnTitleScan(col: seq<Element>) returns (title: string, found: bool)
    ensures found <==> ColumnTitle(col).Some?
    ensures title == TitleOf(ColumnTitle(col))
  {
    title, found := DefaultTitle, false;
    var k := 0;
    while k < |col| && !found
      invariant 0 <= k <= |col|
      invariant found ==> ColumnTitle(col[..k]) == Some(title)
      invariant !found ==> ColumnTitle(col[..k]).None? && title == DefaultTitle
    {
      var e := col[k];
      assert col[..k + 1][..k] == col[..k];
      if e.kind == "heading" && e.content.Str? && !IsBlank(e.content.text) {
        title := Trim(e.content.text);
        found := true;
      }
      k := k + 1;
    }
    ColumnTitlePrefix(col, k);
    if !found {
      assert col[..k] == col;
    }
  }

  /**
   * The middle title loop: the displayed columns of one section, stopping at the first title.
   * The column views are pure, so they are taken in one go and scanned in order.
   */
  method SectionTitleScan(s: Section) returns (title: string, found: bool)
    ensures found <==> PageTitle(SectionColumns(s, ColumnsShown(s))).Some?
    ensures title == TitleOf(PageTitle(SectionColumns(s, ColumnsShown(s))))
  {
    title, found := ColumnsTitleScan(SectionColumns(s, ColumnsShown(s)));
  }

  /** The middle loop over a run of columns, stopping at the first column with a title. */
  method ColumnsTitleScan(cols: seq<seq<Element>>) returns (title: string, found: bool)
    ensures found <==> PageTitle(cols).Some?
    ensures title == TitleOf(PageTitle(cols))
  {
    title, found := DefaultTitle, false;
    var c := 0;
    while c < |cols| && !found
      invariant 0 <= c <= |cols|
      invariant found ==> PageTitle(cols[..c]) == Some(title)
      invariant !found ==> PageTitle(cols[..c]).None? && title == DefaultTitle
    {
      Snoc(cols[..c], cols[c]);
      assert cols[..c + 1] == cols[..c] + [cols[c]];
      title, found := ColumnTitleScan(cols[c]);
      c := c + 1;
    }
    assert cols == cols[..c] + cols[c..];
    PageTitleConcat(cols[..c], cols[c..]);
  }

  /** The title scan: the outer loop over sections, leaving at the first title found. */
  method FindTitle(sections: seq<Section>) returns (title: string, found: bool)
    ensures found <==> PageTitle(PageColumns(sections)).Some?
    ensures title == TitleOf(PageTitle(PageColumns(sections)))
  {
    title, found := DefaultTitle, false;
    var i := 0;
    while i < |sections| && !found
      invariant 0 <= i <= |sections|
      invariant found ==> PageTitle(PageColumns(sections[..i])) == Some(title)
      invariant !found ==> PageTitle(PageColumns(sections[..i])).None? && title == DefaultTitle
    {
      PageColumnsStep(sections, i);
      PageTitleConcat(PageColumns(sections[..i]), SectionColumns(sections[i], ColumnsShown(sections[i])));
      title, found := SectionTitleScan(sections[i]);
      i := i + 1;
    }
    assert sections == sections[..i] + sections[i..];
    PageColumnsConcat(sections[..i], sections[i..]);
    PageTitleConcat(PageColumns(sections[..i]), PageColumns(sections[i..]));
  }

  /** The first title of two runs of columns is the first run's, or else the second's. */
  lemma {:induction false} PageTitleConcat(a: seq<seq<Element>>, b: seq<seq<Element>>)
    ensures PageTitle(a + b) == if PageTitle(a).Some? then PageTitle(a) else PageTitle(b)
    decreases |b|
  {
    if b == [] {
      assert a + b == a;
    } else {
      var n := |b| - 1;
      PageTitleConcat(a, b[..n]);
      assert (a + b)[..|a + b| - 1] == a + b[..n];
      assert (a + b)[|a + b| - 1] == b[n];
    }
  }

  /** A column's title, once found, is the title of every longer column prefix. */
  lemma {:induction false} ColumnTitlePrefix(col: seq<Element>, k: nat)
    requires k <= |col|
    ensures ColumnTitle(col[..k]).Some? ==> ColumnTitle(col) == ColumnTitle(col[..k])
    decreases |col| - k
  {
    if k < |col| && ColumnTitle(col[..k]).Some? {
      ColumnTitlePrefix(col, k + 1);
      assert col[..k + 1][..k] == col[..k];
    } else if k == |col| {
      assert col[..k] == col;
    }
  }

  /** One element of the grouping loop, as one chain of branches. */
  method GroupElement(content0: seq<Block>, cur0: Block, skip0: bool, e: Element, title: string)
    returns (content: seq<Block>, cur: Block, skip: bool)
    requires WellTyped(e)
    ensures Acc(content, cur, skip) == GroupStep(Acc(content0, cur0, skip0), e, title)
  {
    content, cur, skip := content0, cur0, skip0;
    if skip && e.kind == "heading" && e.content.Str? && Trim(e.content.text) == title {
      skip := false;
      return;
    }
    var d := ContentData(e);
    if d.Some? && d.value != DText("") {
      if e.kind == "heading" || e.kind == "text" {
        if |cur| > 0 {
          content := content + [cur];
        }
        cur := [("subtitle", d.value)];
      } else if e.kind == "paragraph" {
        var p := Get(cur, "paragraph");
        if p.Some? && p.value.DText? && p.value.text != "" {
          cur := Put(cur, "paragraph", DText(p.value.text + " " + e.content.text));
        } else {
          cur := Put(cur, "paragraph", DText(e.content.text));
        }
      } else if e.kind == "image" || e.kind == "image-caption" {
        cur := Put(cur, "image", d.value);
      } else if e.kind == "video" {
        cur := Put(cur, "video", d.value);
      } else if e.kind == "button" {
        cur := Put(cur, "cta", d.value);
      } else if e.kind == "table" {
        cur := Put(cur, "table", d.value);
      } else {
        content := content + [[(e.kind, d.value)]];
      }
    }
  }

  /** One column of the grouping loop. */
  method GroupColumnLoop(content0: seq<Block>, skip0: bool, col: seq<Element>, title: string)
    returns (content: seq<Block>, skip: bool)
    requires ElementsWellTyped(col)
    ensures Out(content, skip) == GroupColumn(Out(content0, skip0), col, title)
  {
    content, skip := content0, skip0;
    var cur: Block := [];
    var k := 0;
    while k < |col|
      invariant 0 <= k <= |col|
      invariant ElementsWellTyped(col[..k])
      invariant Acc(content, cur, skip) == GroupElements(Acc(content0, [], skip0), col[..k], title)
    {
      PrefixWellTyped(col, k + 1);
      assert col[..k + 1][..k] == col[..k];
      content, cur, skip := GroupElement(content, cur, skip, col[k], title);
      k := k + 1;
    }
    assert col[..k] == col;
    if |cur| > 0 {
      content := content + [cur];
    }
  }

  /** Grouping a run of columns after another continues from where the other stopped. */
  lemma {:induction false} GroupColumnsConcat(o: Out, a: seq<seq<Element>>, b: seq<seq<Element>>, title: string)
    requires PageWellTyped(a) && PageWellTyped(b)
    ensures PageWellTyped(a + b)
    ensures GroupColumns(o, a + b, title) == GroupColumns(GroupColumns(o, a, title), b, title)
    decreases |b|
  {
    if b == [] {
      assert a + b == a;
    } else {
      var n := |b| - 1;
      PagePrefixWellTyped(b, n);
      GroupColumnsConcat(o, a, b[..n], title);
      assert (a + b)[..|a + b| - 1] == a + b[..n];
      assert (a + b)[|a + b| - 1] == b[n];
    }
  }

  /** The displayed columns of one section in the grouping loop. */
  method GroupSection(content0: seq<Block>, skip0: bool, s: Section, title: string)
    returns (content: seq<Block>, skip: bool)
    requires ElementsWellTyped(s.elements)
    ensures PageWellTyped(SectionColumns(s, ColumnsShown(s)))
    ensures Out(content, skip) == GroupColumns(Out(content0, skip0), SectionColumns(s, ColumnsShown(s)), title)
  {
    SectionColumnsWellTyped(s, ColumnsShown(s));
    content, skip := content0, skip0;
    var c := 0;
    while c < s.columns
      invariant 0 <= c <= ColumnsShown(s)
      invariant Out(content, skip) == GroupColumns(Out(content0, skip0), SectionColumns(s, c), title)
    {
      SectionColumnsWellTyped(s, c + 1);
      var col := ColumnView(s, c);
      Snoc(SectionColumns(s, c), col);
      content, skip := GroupColumnLoop(content, skip, col, title);
      c := c + 1;
    }
  }

  /** The grouping loop over every section. */
  method GroupLoop(sections: seq<Section>, title: string, skip0: bool) returns (content: seq<Block>, skip: bool)
    requires WellTypedSections(sections)
    ensures PageWellTyped(PageColumns(sections))
    ensures Out(content, skip) == GroupColumns(Out([], skip0), PageColumns(sections), title)
  {
    content, skip := [], skip0;
    var i := 0;
    while i < |sections|
      invariant 0 <= i <= |sections|
      invariant PageWellTyped(PageColumns(sections[..i]))
      invariant Out(content, skip) == GroupColumns(Out([], skip0), PageColumns(sections[..i]), title)
    {
      SectionWellTyped(sections, i);
      content, skip := GroupSection(content, skip, sections[i], title);
      PageColumnsStep(sections, i);
      GroupColumnsConcat(Out([], skip0), PageColumns(sections[..i]), SectionColumns(sections[i], ColumnsShown(sections[i])), title);
      i := i + 1;
    }
    assert sections[..i] == sections;
  }

  /** One column of the fallback loop. */
  method FallbackColumnLoop(content0: seq<Block>, skip0: bool, col: seq<Element>, title: string)
    returns (content: seq<Block>, skip: bool)
    requires ElementsWellTyped(col)
    ensures Out(content, skip) == FallbackElements(Out(content0, skip0), col, title)
  {
    content, skip := content0, skip0;
    var k := 0;
    while k < |col|
      invariant 0 <= k <= |col|
      invariant ElementsWellTyped(col[..k])
      invariant Out(content, skip) == FallbackElements(Out(content0, skip0), col[..k], title)
    {
      PrefixWellTyped(col, k + 1);
      assert col[..k + 1][..k] == col[..k];
      var e := col[k];
      if skip && e.kind == "heading" && e.content.Str? && Trim(e.content.text) == title {
        skip := false;
      } else {
        var d := ContentData(e);
        if d.Some? && d.value != DText("") {
          var key := if e.kind == "text" then "subtitle" else e.kind;
          content := content + [[(key, d.value)]];
        }
      }
      k := k + 1;
    }
    assert col[..k] == col;
  }

  lemma {:induction false} FallbackColumnsConcat(o: Out, a: seq<seq<Element>>, b: seq<seq<Element>>, title: string)
    requires PageWellTyped(a) && PageWellTyped(b)
    ensures PageWellTyped(a + b)
    ensures FallbackColumns(o, a + b, title) == FallbackColumns(FallbackColumns(o, a, title), b, title)
    decreases |b|
  {
    if b == [] {
      assert a + b == a;
    } else {
      var n := |b| - 1;
      PagePrefixWellTyped(b, n);
      FallbackColumnsConcat(o, a, b[..n], title);
      assert (a + b)[..|a + b| - 1] == a + b[..n];
      assert (a + b)[|a + b| - 1] == b[n];
    }
  }

  /** The displayed columns of one section in the fallback loop. */
  method FallbackSection(content0: seq<Block>, skip0: bool, s: Section, title: string)
    returns (content: seq<Block>, skip: bool)
    requires ElementsWellTyped(s.elements)
    ensures PageWellTyped(SectionColumns(s, ColumnsShown(s)))
    ensures Out(content, skip) == FallbackColumns(Out(content0, skip0), SectionColumns(s, ColumnsShown(s)), title)
  {
    SectionColumnsWellTyped(s, ColumnsShown(s));
    content, skip := content0, skip0;
    var c := 0;
    while c < s.columns
      invariant 0 <= c <= ColumnsShown(s)
      invariant Out(content, skip) == FallbackColumns(Out(content0, skip0), SectionColumns(s, c), title)
    {
      SectionColumnsWellTyped(s, c + 1);
      var col := ColumnView(s, c);
      Snoc(SectionColumns(s, c), col);
      content, skip := FallbackColumnLoop(content, skip, col, title);
      c := c + 1;
    }
  }

  /** The fallback loop over every section. */
  method FallbackLoop(sections: seq<Section>, title: string, skip0: bool) returns (content: seq<Block>, skip: bool)
    requires WellTypedSections(sections)
    ensures PageWellTyped(PageColumns(sections))
    ensures Out(content, skip) == FallbackColumns(Out([], skip0), PageColumns(sections), title)
  {
    content, skip := [], skip0;
    var i := 0;
    while i < |sections|
      invariant 0 <= i <= |sections|
      invariant PageWellTyped(PageColumns(sections[..i]))
      invariant Out(content, skip) == FallbackColumns(Out([], skip0), PageColumns(sections[..i]), title)
    {
      SectionWellTyped(sections, i);
      content, skip := FallbackSection(content, skip, sections[i], title);
      PageColumnsStep(sections, i);
      FallbackColumnsConcat(Out([], skip0), PageColumns(sections[..i]), SectionColumns(sections[i], ColumnsShown(sections[i])), title);
      i := i + 1;
    }
    assert sections[..i] == sections;
  }

  /** `generateJSON`: the title scan, the grouping loop, and the fallback when it found nothing. */
  method GenerateJson(sections: seq<Section>, date: string) returns (w: Website)
    requires WellTypedSections(sections)
    ensures w == WebsiteData(sections, date)
  {
    var title, found := FindTitle(sections);
    var content, skip := GroupLoop(sections, title, found);
    if |content| == 0 {
      content, skip := FallbackLoop(sections, title, skip);
    }
    w := Website(title, "Technology", date, "website-content", content);
  }
}
