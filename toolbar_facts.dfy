/** What the toolbar's JSON export promises: its title, the skipped heading, and its blocks. */
module ToolbarFacts {
  import opened Wrappers
  import opened Strings
  import opened Records
  import opened Styles
  import opened Document
  import opened Columns
  import opened Seqs
  import opened Schema
  import opened Toolbar

  // ---------------------------------------------------------------------------------------
  // The title

  /** A column's title is the trimmed text of its first title heading; none without one. */
  lemma {:induction false} ColumnTitleFirst(col: seq<Element>)
    ensures ColumnTitle(col).None? <==> forall j :: 0 <= j < |col| ==> !IsTitleHeading(col[j])
    ensures ColumnTitle(col).Some? ==>
      exists j :: 0 <= j < |col| && IsTitleHeading(col[j]) && ColumnTitle(col).value == Trim(col[j].content.text) &&
                  forall j' :: 0 <= j' < j ==> !IsTitleHeading(col[j'])
    decreases |col|
  {
    if col != [] {
      var n := |col| - 1;
      ColumnTitleFirst(col[..n]);
      assert forall j :: 0 <= j < n ==> col[..n][j] == col[j];
      if ColumnTitle(col[..n]).Some? {
        var j :| 0 <= j < n && IsTitleHeading(col[..n][j]) && ColumnTitle(col[..n]).value == Trim(col[..n][j].content.text) &&
                 forall j' :: 0 <= j' < j ==> !IsTitleHeading(col[..n][j']);
        assert IsTitleHeading(col[j]);
      }
    }
  }

  /** The page title is the title of the first column that has one; none when no column has. */
  lemma {:induction false} PageTitleFirst(cols: seq<seq<Element>>)
    ensures PageTitle(cols).None? <==> forall i :: 0 <= i < |cols| ==> ColumnTitle(cols[i]).None?
    ensures PageTitle(cols).Some? ==>
      exists i :: 0 <= i < |cols| && ColumnTitle(cols[i]) == PageTitle(cols) &&
                  forall i' :: 0 <= i' < i ==> ColumnTitle(cols[i']).None?
    decreases |cols|
  {
    if cols != [] {
      var n := |cols| - 1;
      PageTitleFirst(cols[..n]);
      assert forall i :: 0 <= i < n ==> cols[..n][i] == cols[i];
      if PageTitle(cols[..n]).Some? {
        var i :| 0 <= i < n && ColumnTitle(cols[..n][i]) == PageTitle(cols[..n]) &&
                 forall i' :: 0 <= i' < i ==> ColumnTitle(cols[..n][i']).None?;
        assert ColumnTitle(cols[i]) == PageTitle(cols);
      }
    }
  }

  /** A found title is non-blank and already trimmed. */
  lemma TitleTrimmed(cols: seq<seq<Element>>)
    requires PageTitle(cols).Some?
    ensures !IsBlank(PageTitle(cols).value) && Trim(PageTitle(cols).value) == PageTitle(cols).value
  {
    PageTitleFirst(cols);
    var i :| 0 <= i < |cols| && ColumnTitle(cols[i]) == PageTitle(cols);
    ColumnTitleFirst(cols[i]);
    var j :| 0 <= j < |cols[i]| && IsTitleHeading(cols[i][j]) && ColumnTitle(cols[i]).value == Trim(cols[i][j].content.text);
    TrimIdempotent(cols[i][j].content.text);
  }

  /** The exported title is the default exactly when the page has no non-blank heading. */
  lemma DefaultTitleIff(sections: seq<Section>, date: string)
    requires WellTypedSections(sections)
    ensures PageTitle(PageColumns(sections)).None? <==>
      forall i, j :: 0 <= i < |PageColumns(sections)| && 0 <= j < |PageColumns(sections)[i]| ==>
        !IsTitleHeading(PageColumns(sections)[i][j])
    ensures PageTitle(PageColumns(sections)).None? ==> WebsiteData(sections, date).title == DefaultTitle
    ensures PageTitle(PageColumns(sections)).Some? ==>
      WebsiteData(sections, date).title == PageTitle(PageColumns(sections)).value &&
      !IsBlank(WebsiteData(sections, date).title)
  {
    var cols := PageColumns(sections);
    PageTitleFirst(cols);
    forall i | 0 <= i < |cols| {
      ColumnTitleFirst(cols[i]);
    }
    if PageTitle(cols).Some? {
      TitleTrimmed(cols);
    }
  }

  // ---------------------------------------------------------------------------------------
  // The skipped heading

  /** The skip flag ends up on exactly when it started on and no element matched the title. */
  lemma {:induction false} GroupElementsSkip(a: Acc, col: seq<Element>, t: string)
    requires ElementsWellTyped(col)
    ensures GroupElements(a, col, t).skip <==> a.skip && forall j :: 0 <= j < |col| ==> !Skips(true, col[j], t)
    decreases |col|
  {
    if col != [] {
      var n := |col| - 1;
      PrefixWellTyped(col, n);
      GroupElementsSkip(a, col[..n], t);
      assert forall j :: 0 <= j < n ==> col[..n][j] == col[j];
    }
  }

  lemma {:induction false} GroupColumnsSkip(o: Out, cols: seq<seq<Element>>, t: string)
    requires PageWellTyped(cols)
    ensures GroupColumns(o, cols, t).skip <==>
      o.skip && forall i, j :: 0 <= i < |cols| && 0 <= j < |cols[i]| ==> !Skips(true, cols[i][j], t)
    decreases |cols|
  {
    if cols != [] {
      var n := |cols| - 1;
      PagePrefixWellTyped(cols, n);
      GroupColumnsSkip(o, cols[..n], t);
      var o' := GroupColumns(o, cols[..n], t);
      GroupElementsSkip(Acc(o'.content, [], o'.skip), cols[n], t);
      assert forall i :: 0 <= i < n ==> cols[..n][i] == cols[i];
    }
  }

  /**
   * When a title was found the grouping pass always consumes the skip flag: the title's own
   * heading matches it, so the fallback pass never skips anything.
   */
  lemma TitleConsumed(cols: seq<seq<Element>>)
    requires PageWellTyped(cols) && PageTitle(cols).Some?
    ensures !GroupColumns(Out([], true), cols, PageTitle(cols).value).skip
  {
    var t := PageTitle(cols).value;
    PageTitleFirst(cols);
    var i :| 0 <= i < |cols| && ColumnTitle(cols[i]) == PageTitle(cols);
    ColumnTitleFirst(cols[i]);
    var j :| 0 <= j < |cols[i]| && IsTitleHeading(cols[i][j]) && ColumnTitle(cols[i]).value == Trim(cols[i][j].content.text);
    assert Skips(true, cols[i][j], t);
    GroupColumnsSkip(Out([], true), cols, t);
  }

  // ---------------------------------------------------------------------------------------
  // The blocks

  /** An open block: distinct keys, and `subtitle` only ever as its first key. */
  predicate OpenBlock(b: Block)
  {
    DistinctKeys(b) && forall k :: 0 < k < |b| ==> b[k].0 != "subtitle"
  }

  /** A finished block: an open block with at least one key. */
  predicate GoodBlock(b: Block)
  {
    |b| > 0 && OpenBlock(b)
  }

  predicate GoodBlocks(bs: seq<Block>)
  {
    forall i :: 0 <= i < |bs| ==> GoodBlock(bs[i])
  }

  /** Assigning a key other than `subtitle` keeps a block open and makes it non-empty. */
  lemma PutOpen(b: Block, k: string, v: Data)
    requires OpenBlock(b) && k != "subtitle"
    ensures GoodBlock(Put(b, k, v))
  {
    PutDistinct(b, k, v);
    PutKeys(b, k, v);
    var b' := Put(b, k, v);
    assert Keys(b')[|b'| - 1] == b'[|b'| - 1].0;
    forall i | 0 < i < |b'| ensures b'[i].0 != "subtitle" {
      assert b'[i].0 == Keys(b')[i];
      if i < |b| {
        assert Keys(b')[i] == Keys(b)[i] == b[i].0;
      }
    }
  }

  lemma GroupStepGood(a: Acc, e: Element, t: string)
    requires WellTyped(e) && GoodBlocks(a.content) && OpenBlock(a.cur)
    ensures GoodBlocks(GroupStep(a, e, t).content) && OpenBlock(GroupStep(a, e, t).cur)
  {
    if !Skips(a.skip, e, t) && Truthy(ContentData(e)) {
      if e.kind == "paragraph" {
        PutOpen(a.cur, "paragraph", DText(e.content.text));
        var p := Get(a.cur, "paragraph");
        if p.Some? && p.value.DText? && p.value.text != "" {
          PutOpen(a.cur, "paragraph", DText(p.value.text + " " + e.content.text));
        }
      } else if e.kind != "heading" && e.kind != "text" && SlotOf(e.kind).Some? {
        PutOpen(a.cur, SlotOf(e.kind).value, ContentData(e).value);
      }
    }
  }

  lemma {:induction false} GroupElementsGood(a: Acc, col: seq<Element>, t: string)
    requires ElementsWellTyped(col) && GoodBlocks(a.content) && OpenBlock(a.cur)
    ensures GoodBlocks(GroupElements(a, col, t).content) && OpenBlock(GroupElements(a, col, t).cur)
    decreases |col|
  {
    if col != [] {
      var n := |col| - 1;
      PrefixWellTyped(col, n);
      GroupElementsGood(a, col[..n], t);
      GroupStepGood(GroupElements(a, col[..n], t), col[n], t);
    }
  }

  lemma {:induction false} GroupColumnsGood(o: Out, cols: seq<seq<Element>>, t: string)
    requires PageWellTyped(cols) && GoodBlocks(o.content)
    ensures GoodBlocks(GroupColumns(o, cols, t).content)
    decreases |cols|
  {
    if cols != [] {
      var n := |cols| - 1;
      PagePrefixWellTyped(cols, n);
      GroupColumnsGood(o, cols[..n], t);
      var o' := GroupColumns(o, cols[..n], t);
      GroupElementsGood(Acc(o'.content, [], o'.skip), cols[n], t);
    }
  }

  predicate SingleKeyBlocks(bs: seq<Block>)
  {
    forall i :: 0 <= i < |bs| ==> |bs[i]| == 1
  }

  /** Every fallback block holds exactly one key. */
  lemma {:induction false} FallbackElementsSingle(o: Out, col: seq<Element>, t: string)
    requires ElementsWellTyped(col) && SingleKeyBlocks(o.content)
    ensures SingleKeyBlocks(FallbackElements(o, col, t).content)
    decreases |col|
  {
    if col != [] {
      var n := |col| - 1;
      PrefixWellTyped(col, n);
      FallbackElementsSingle(o, col[..n], t);
    }
  }

  lemma {:induction false} FallbackColumnsSingle(o: Out, cols: seq<seq<Element>>, t: string)
    requires PageWellTyped(cols) && SingleKeyBlocks(o.content)
    ensures SingleKeyBlocks(FallbackColumns(o, cols, t).content)
    decreases |cols|
  {
    if cols != [] {
      var n := |cols| - 1;
      PagePrefixWellTyped(cols, n);
      FallbackColumnsSingle(o, cols[..n], t);
      FallbackElementsSingle(FallbackColumns(o, cols[..n], t), cols[n], t);
    }
  }

  /**
   * Every exported block is a JSON object with at least one key, no key twice, and `subtitle`
   * only as its first key.
   */
  lemma WebsiteBlocksGood(sections: seq<Section>, date: string)
    requires WellTypedSections(sections)
    ensures GoodBlocks(WebsiteData(sections, date).content)
  {
    PageColumnsWellTyped(sections);
    var cols := PageColumns(sections);
    var t := TitleOf(PageTitle(cols));
    GroupColumnsGood(Out([], PageTitle(cols).Some?), cols, t);
    var main := GroupColumns(Out([], PageTitle(cols).Some?), cols, t);
    FallbackColumnsSingle(Out([], main.skip), cols, t);
    var fb := FallbackColumns(Out([], main.skip), cols, t).content;
    forall i | 0 <= i < |fb| ensures GoodBlock(fb[i]) {
      assert |fb[i]| == 1;
    }
  }

  // ---------------------------------------------------------------------------------------
  // The fallback

  /** A block holding only the title heading's untrimmed text under the key `heading`. */
  predicate TitleBlock(b: Block, t: string)
  {
    |b| == 1 && b[0].0 == "heading" && b[0].1.DText? && Trim(b[0].1.text) == t
  }

  /** `after` is `before` followed by at most one title block, and by none unless `consumed`. */
  predicate Extends(after: seq<Block>, before: seq<Block>, t: string, consumed: bool)
  {
    |before| <= |after| <= |before| + 1 && after[..|before|] == before &&
    (|after| > |before| ==> consumed && TitleBlock(after[|before|], t))
  }

  /** The grouping pass only ever adds blocks. */
  lemma {:induction false} GroupElementsGrows(a: Acc, col: seq<Element>, t: string)
    requires ElementsWellTyped(col)
    ensures a.content <= GroupElements(a, col, t).content
    decreases |col|
  {
    if col != [] {
      var n := |col| - 1;
      PrefixWellTyped(col, n);
      GroupElementsGrows(a, col[..n], t);
    }
  }

  lemma {:induction false} GroupColumnsGrows(o: Out, cols: seq<seq<Element>>, t: string)
    requires PageWellTyped(cols)
    ensures o.content <= GroupColumns(o, cols, t).content
    decreases |cols|
  {
    if cols != [] {
      var n := |cols| - 1;
      PagePrefixWellTyped(cols, n);
      GroupColumnsGrows(o, cols[..n], t);
      var o' := GroupColumns(o, cols[..n], t);
      GroupElementsGrows(Acc(o'.content, [], o'.skip), cols[n], t);
    }
  }

  /** A step that adds no block and leaves no open block skipped its element or found it empty. */
  lemma GroupStepQuiet(a: Acc, e: Element, t: string)
    requires WellTyped(e)
    requires |GroupStep(a, e, t).content| <= |a.content| && GroupStep(a, e, t).cur == []
    ensures a.cur == [] && GroupStep(a, e, t).content == a.content
    ensures Skips(a.skip, e, t) || !Truthy(ContentData(e))
  {
  }

  /**
   * Over a column where grouping added nothing, the fallback (with no skip pending) adds at
   * most the heading the grouping skipped.
   */
  lemma {:induction false} FallbackElementsQuiet(a: Acc, f: Out, col: seq<Element>, t: string)
    requires ElementsWellTyped(col) && t != "" && a.cur == [] && !f.skip
    requires GroupElements(a, col, t).content == a.content && GroupElements(a, col, t).cur == []
    ensures !FallbackElements(f, col, t).skip
    ensures Extends(FallbackElements(f, col, t).content, f.content, t, a.skip && !GroupElements(a, col, t).skip)
    decreases |col|
  {
    if col != [] {
      var n := |col| - 1;
      var e := col[n];
      PrefixWellTyped(col, n);
      var r0 := GroupElements(a, col[..n], t);
      GroupElementsGrows(a, col[..n], t);
      GroupStepQuiet(r0, e, t);
      FallbackElementsQuiet(a, f, col[..n], t);
      GroupElementsSkip(a, col[..n], t);
      var f0 := FallbackElements(f, col[..n], t);
      if Skips(r0.skip, e, t) && Truthy(ContentData(e)) {
        assert f0.content == f.content;
        assert FallbackElements(f, col, t).content == f.content + [[("heading", DText(e.content.text))]];
      }
    }
  }

  /** Once off, the skip flag stays off. */
  lemma GroupColumnsSkipOff(o: Out, cols: seq<seq<Element>>, t: string)
    requires PageWellTyped(cols)
    ensures GroupColumns(o, cols, t).skip ==> o.skip
  {
    GroupColumnsSkip(o, cols, t);
  }

  lemma ExtendsTrans(c: seq<Block>, b: seq<Block>, a: seq<Block>, t: string, c1: bool, c2: bool)
    requires Extends(b, a, t, c1) && Extends(c, b, t, c2) && !(c1 && c2)
    ensures Extends(c, a, t, c1 || c2)
  {
    if |b| > |a| {
      assert |c| == |b|;
      assert c == b;
    } else {
      assert b == a;
    }
  }

  /** The page-level form: where grouping added nothing, the fallback adds at most the skipped heading. */
  lemma {:induction false} FallbackColumnsQuiet(o: Out, f: Out, cols: seq<seq<Element>>, t: string)
    requires PageWellTyped(cols) && t != "" && !f.skip
    requires GroupColumns(o, cols, t).content == o.content
    ensures !FallbackColumns(f, cols, t).skip
    ensures Extends(FallbackColumns(f, cols, t).content, f.content, t, o.skip && !GroupColumns(o, cols, t).skip)
    decreases |cols|
  {
    if cols != [] {
      var n := |cols| - 1;
      PagePrefixWellTyped(cols, n);
      var m0 := GroupColumns(o, cols[..n], t);
      GroupColumnsGrows(o, cols[..n], t);
      GroupColumnsSkipOff(o, cols[..n], t);
      var a := Acc(m0.content, [], m0.skip);
      var r := GroupElements(a, cols[n], t);
      GroupElementsGrows(a, cols[n], t);
      assert r.cur == [] && r.content == m0.content;
      FallbackColumnsQuiet(o, f, cols[..n], t);
      var f0 := FallbackColumns(f, cols[..n], t);
      FallbackElementsQuiet(a, f0, cols[n], t);
      GroupElementsSkip(a, cols[n], t);
      ExtendsTrans(FallbackElements(f0, cols[n], t).content, f0.content, f.content, t,
                   o.skip && !m0.skip, m0.skip && !r.skip);
    }
  }

  /**
   * The fallback (taken only when grouping produced no block) yields nothing, or, when a title
   * was found, the single block holding the title heading's untrimmed text: nothing else on
   * the page could have been missed by the grouping pass.
   */
  lemma FallbackShape(sections: seq<Section>, date: string)
    requires WellTypedSections(sections)
    ensures Grouped(sections).content == [] ==>
      var w := WebsiteData(sections, date);
      w.content == [] || (PageTitle(PageColumns(sections)).Some? && |w.content| == 1 && TitleBlock(w.content[0], w.title))
  {
    PageColumnsWellTyped(sections);
    var cols := PageColumns(sections);
    var t := PageTitle(cols);
    var title := TitleOf(t);
    var o := Out([], t.Some?);
    var main := GroupColumns(o, cols, title);
    assert main == Grouped(sections);
    if main.content == [] {
      GroupColumnsSkipOff(o, cols, title);
      if t.Some? {
        TitleTrimmed(cols);
        TitleConsumed(cols);
      }
      FallbackColumnsQuiet(o, Out([], main.skip), cols, title);
    }
  }

  // ---------------------------------------------------------------------------------------
  // Two small pages

  /**
   * A heading, then two paragraphs, with nothing to skip: one block with the heading as
   * subtitle and the paragraphs joined by a space.
   */
  lemma ParagraphsJoin(e1: Element, e2: Element, e3: Element, t: string)
    requires e1.kind == "heading" && e1.content.Str? && e1.content.text != ""
    requires e2.kind == "paragraph" && e2.content.Str? && e2.content.text != ""
    requires e3.kind == "paragraph" && e3.content.Str? && e3.content.text != ""
    ensures ElementsWellTyped([e1, e2, e3])
    ensures GroupColumn(Out([], false), [e1, e2, e3], t) ==
      Out([[("subtitle", DText(e1.content.text)), ("paragraph", DText(e2.content.text + " " + e3.content.text))]], false)
  {
    var col := [e1, e2, e3];
    assert col[..2] == [e1, e2] && col[..2][..1] == [e1] && col[..2][..1][..0] == [];
    assert [e1][..0] == [];
    assert ElementsWellTyped([e1]) && ElementsWellTyped([]);
    assert GroupElements(Acc([], [], false), [], t) == Acc([], [], false);
    assert GroupStep(Acc([], [], false), e1, t) == Acc([], [("subtitle", DText(e1.content.text))], false);
    var a1 := GroupElements(Acc([], [], false), [e1], t);
    assert a1 == GroupStep(Acc([], [], false), e1, t);
    assert a1 == Acc([], [("subtitle", DText(e1.content.text))], false);
    var a2 := GroupElements(Acc([], [], false), [e1, e2], t);
    assert [e1, e2][..1] == [e1];
    assert a2 == GroupStep(a1, e2, t);
    assert Get(a1.cur, "paragraph") == None;
    assert a1.cur[1..] == [];
    assert Put(a1.cur, "paragraph", DText(e2.content.text)) == a1.cur + [("paragraph", DText(e2.content.text))];
    assert a2 == Acc([], [("subtitle", DText(e1.content.text)), ("paragraph", DText(e2.content.text))], false);
    assert GroupElements(Acc([], [], false), col, t) == GroupStep(a2, e3, t);
    assert Get(a2.cur, "paragraph") == Some(DText(e2.content.text));
    var joined := DText(e2.content.text + " " + e3.content.text);
    assert a2.cur[1..][1..] == [];
    assert Put(a2.cur[1..], "paragraph", joined) == [("paragraph", joined)];
    assert Put(a2.cur, "paragraph", joined) == [a2.cur[0], ("paragraph", joined)];
  }

  /** A one-column section whose two elements sit in column 0 in order is that one column. */
  lemma OneColumnPage(e1: Element, e2: Element, id: string, st: Style)
    requires e1.columnIndex == 0 && e2.columnIndex == 0 && e1.order <= e2.order
    ensures PageColumns([Section(id, 1, [e1, e2], st)]) == [[e1, e2]]
  {
    var s := Section(id, 1, [e1, e2], st);
    var col := [e1, e2];
    assert col[..1] == [e1] && col[..1][..0] == [];
    FilterAll(col, InColumn(0));
    assert SortByOrder([e1]) == [e1];
    assert ColumnView(s, 0) == col;
    assert [s][..0] == [];
  }

  /** The grouping pass over that column, skipping the title heading. */
  lemma TitleColumnGrouped(e1: Element, e2: Element, title: string)
    requires e1.kind == "heading" && e1.content.Str? && Trim(e1.content.text) == title
    requires e2.kind == "paragraph" && e2.content.Str? && e2.content.text != ""
    ensures PageWellTyped([[e1, e2]])
    ensures GroupColumns(Out([], true), [[e1, e2]], title) == Out([[("paragraph", DText(e2.content.text))]], false)
  {
    var col := [e1, e2];
    assert col[..1] == [e1] && [e1][..0] == [];
    assert ElementsWellTyped([e1]) && ElementsWellTyped([]);
    assert GroupElements(Acc([], [], true), [], title) == Acc([], [], true);
    var a1 := GroupElements(Acc([], [], true), [e1], title);
    assert a1 == GroupStep(Acc([], [], true), e1, title);
    assert Skips(true, e1, title);
    assert a1 == Acc([], [], false);
    var a2 := GroupElements(Acc([], [], true), col, title);
    assert a2 == Acc([], [("paragraph", DText(e2.content.text))], false);
    var page: seq<seq<Element>> := [col];
    assert page[..0] == [];
    assert PageWellTyped([col]) && PageWellTyped([]);
    assert GroupColumns(Out([], true), [], title) == Out([], true);
    assert GroupColumn(Out([], true), col, title) == Out([[("paragraph", DText(e2.content.text))]], false);
  }

  /**
   * One column holding a non-blank heading and, after it, a non-empty paragraph: the heading
   * becomes the trimmed title and is left out of the content, and the paragraph forms a block
   * with no subtitle.
   */
  lemma TitleAndParagraph(e1: Element, e2: Element, id: string, st: Style, date: string)
    requires e1.kind == "heading" && e1.content.Str? && !IsBlank(e1.content.text) && e1.columnIndex == 0
    requires e2.kind == "paragraph" && e2.content.Str? && e2.content.text != "" && e2.columnIndex == 0
    requires e1.order <= e2.order
    ensures WellTypedSections([Section(id, 1, [e1, e2], st)])
    ensures WebsiteData([Section(id, 1, [e1, e2], st)], date) ==
      Website(Trim(e1.content.text), "Technology", date, "website-content", [[("paragraph", DText(e2.content.text))]])
  {
    var s := Section(id, 1, [e1, e2], st);
    assert WellTypedSections([s]) by {
      assert forall j :: 0 <= j < 2 ==> [s][0].elements[j] == [e1, e2][j];
    }
    var col := [e1, e2];
    OneColumnPage(e1, e2, id, st);
    var title := Trim(e1.content.text);
    var page: seq<seq<Element>> := [col];
    assert col[..1] == [e1] && [e1][..0] == [] && page[..0] == [];
    assert ColumnTitle([e1]) == Some(title);
    assert PageTitle([col]) == Some(title);
    TrimIdempotent(e1.content.text);
    TitleColumnGrouped(e1, e2, title);
    assert Grouped([s]).content == [[("paragraph", DText(e2.content.text))]];
  }

  // ---------------------------------------------------------------------------------------
  // The e-mail request

  /**
   * No request without a non-blank paragraph; otherwise the request carries the title, a link
   * ending in the encoded title, and the trimmed first non-blank paragraph, which is not empty.
   */
  lemma EmailPayloadShape(w: Website, genLink: string)
    ensures EmailPayload(w, genLink).None? <==> forall i :: 0 <= i < |w.content| ==> !HasParagraph(w.content[i])
    ensures EmailPayload(w, genLink).Some? ==>
      var r := EmailPayload(w, genLink).value;
      r.title == w.title && r.link == genLink + "/?=" + EncodeURIComponent(w.title) && r.subs == "subscriber" &&
      r.des != "" && Trim(r.des) == r.des &&
      exists i :: 0 <= i < |w.content| && HasParagraph(w.content[i]) &&
                  r.des == Trim(Get(w.content[i], "paragraph").value.text) &&
                  forall j :: 0 <= j < i ==> !HasParagraph(w.content[j])
  {
    var f := FirstParagraphBlock(w.content);
    if f.Some? {
      TrimIdempotent(Get(f.value, "paragraph").value.text);
    }
  }
}
