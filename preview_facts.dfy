/** What the preview's JSON exporter does, and where it departs from the toolbar's. */
module PreviewFacts {
  import opened Wrappers
  import opened Records
  import opened Document
  import opened Columns
  import opened Schema
  import opened Toolbar
  import opened PreviewJson

  /** Finished blocks plus one for a non-empty open block: what a final flush would hold. */
  function Progress(g: Grouping): nat
  {
    |g.content| + if |g.cur| > 0 then 1 else 0
  }

  /** A well-typed element whose extracted data is falsy: a spacer, or empty text. */
  predicate Falsy(e: Element)
  {
    WellTyped(e) && !Truthy(ContentData(e))
  }

  /** A step never loses progress, a falsy element changes nothing, and a truthy one goes past the finished blocks. */
  lemma PreviewStepProgress(g: Grouping, e: Element)
    requires WellTyped(e)
    ensures |PreviewStep(g, e).content| >= |g.content| && Progress(PreviewStep(g, e)) >= Progress(g)
    ensures Falsy(e) ==> PreviewStep(g, e) == g
    ensures !Falsy(e) ==> Progress(PreviewStep(g, e)) > |g.content|
  {
    var d := ContentData(e);
    if Truthy(d) {
      if e.kind == "paragraph" || e.kind == "text" {
        var p := Get(g.cur, "paragraph");
        if p.Some? && p.value.DText? && p.value.text != "" {
          assert |AddParagraph(g.cur, e.content.text)| > 0 by {
            assert Get(Put(g.cur, "paragraph", DText(p.value.text + " " + e.content.text)), "paragraph").Some?;
          }
        } else {
          assert Get(Put(g.cur, "paragraph", DText(e.content.text)), "paragraph").Some?;
        }
      } else if e.kind != "heading" && SlotOf(e.kind).Some? {
        assert Get(Put(g.cur, SlotOf(e.kind).value, d.value), SlotOf(e.kind).value).Some?;
      }
    }
  }

  /** Over a column progress never drops. */
  lemma {:induction false} PreviewElementsMono(g: Grouping, col: seq<Element>)
    requires ElementsWellTyped(col)
    ensures |PreviewElements(g, col).content| >= |g.content| && Progress(PreviewElements(g, col)) >= Progress(g)
    decreases |col|
  {
    if col != [] {
      var n := |col| - 1;
      PrefixWellTyped(col, n);
      PreviewElementsMono(g, col[..n]);
      PreviewStepProgress(PreviewElements(g, col[..n]), col[n]);
    }
  }

  /** ... nor past any prefix of the column. */
  lemma {:induction false} PreviewElementsPrefix(g: Grouping, col: seq<Element>, k: nat)
    requires ElementsWellTyped(col) && k <= |col|
    ensures ElementsWellTyped(col[..k])
    ensures Progress(PreviewElements(g, col)) >= Progress(PreviewElements(g, col[..k]))
    decreases |col|
  {
    PrefixWellTyped(col, k);
    if k == |col| {
      assert col[..k] == col;
    } else {
      var n := |col| - 1;
      PrefixWellTyped(col, n);
      assert col[..n][..k] == col[..k];
      PreviewElementsPrefix(g, col[..n], k);
      PreviewStepProgress(PreviewElements(g, col[..n]), col[n]);
    }
  }

  /** A column of falsy elements changes nothing. */
  lemma {:induction false} PreviewElementsFalsy(g: Grouping, col: seq<Element>)
    requires ElementsWellTyped(col) && forall j :: 0 <= j < |col| ==> Falsy(col[j])
    ensures PreviewElements(g, col) == g
    decreases |col|
  {
    if col != [] {
      var n := |col| - 1;
      PrefixWellTyped(col, n);
      assert forall j :: 0 <= j < n ==> col[..n][j] == col[j];
      PreviewElementsFalsy(g, col[..n]);
      PreviewStepProgress(g, col[n]);
    }
  }

  /** One truthy element in a column is enough for the column to yield a block. */
  lemma PreviewElementsTruthy(g: Grouping, col: seq<Element>, j: nat)
    requires ElementsWellTyped(col) && j < |col| && !Falsy(col[j])
    ensures Progress(PreviewElements(g, col)) > |g.content|
  {
    PreviewElementsPrefix(g, col, j + 1);
    PrefixWellTyped(col, j);
    assert col[..j + 1][..j] == col[..j];
    PreviewElementsMono(g, col[..j]);
    PreviewStepProgress(PreviewElements(g, col[..j]), col[j]);
  }

  lemma {:induction false} PreviewColumnsMono(content: seq<Block>, cols: seq<seq<Element>>)
    requires PageWellTyped(cols)
    ensures |PreviewColumns(content, cols)| >= |content|
    decreases |cols|
  {
    if cols != [] {
      var n := |cols| - 1;
      PagePrefixWellTyped(cols, n);
      PreviewColumnsMono(content, cols[..n]);
      PreviewElementsMono(Grouping(PreviewColumns(content, cols[..n]), []), cols[n]);
    }
  }

  lemma {:induction false} PreviewColumnsFalsy(content: seq<Block>, cols: seq<seq<Element>>)
    requires PageWellTyped(cols)
    requires forall i, j :: 0 <= i < |cols| && 0 <= j < |cols[i]| ==> Falsy(cols[i][j])
    ensures PreviewColumns(content, cols) == content
    decreases |cols|
  {
    if cols != [] {
      var n := |cols| - 1;
      PagePrefixWellTyped(cols, n);
      assert forall i :: 0 <= i < n ==> cols[..n][i] == cols[i];
      PreviewColumnsFalsy(content, cols[..n]);
      PreviewElementsFalsy(Grouping(content, []), cols[n]);
    }
  }

  lemma PreviewColumnsTruthy(content: seq<Block>, cols: seq<seq<Element>>, i: nat, j: nat)
    requires PageWellTyped(cols) && i < |cols| && j < |cols[i]| && !Falsy(cols[i][j])
    ensures |PreviewColumns(content, cols)| > |content|
  {
    PagePrefixWellTyped(cols, i);
    PagePrefixWellTyped(cols, i + 1);
    var rest := cols[i + 1..];
    assert PageWellTyped(rest) by {
      forall col | col in rest ensures ElementsWellTyped(col) {
        var k :| 0 <= k < |rest| && rest[k] == col;
        assert col == cols[i + 1 + k];
      }
    }
    assert cols == cols[..i + 1] + rest;
    PreviewColumnsConcat(content, cols[..i + 1], rest);
    var before := PreviewColumns(content, cols[..i + 1]);
    PreviewColumnsMono(before, rest);
    assert cols[..i + 1][..i] == cols[..i];
    assert cols[..i + 1][i] == cols[i];
    PreviewColumnsMono(content, cols[..i]);
    PreviewElementsTruthy(Grouping(PreviewColumns(content, cols[..i]), []), cols[i], j);
  }

  /**
   * The preview export fails exactly on a non-empty page whose every displayed element is a
   * spacer or empty text; otherwise it carries the fixed title and the `Website` category.
   */
  lemma PreviewFailsIff(sections: seq<Section>, date: string)
    requires WellTypedSections(sections)
    ensures PageWellTyped(PageColumns(sections))
    ensures PreviewData(sections, date).Err? <==>
      sections != [] &&
      forall i, j :: 0 <= i < |PageColumns(sections)| && 0 <= j < |PageColumns(sections)[i]| ==>
        Falsy(PageColumns(sections)[i][j])
    ensures PreviewData(sections, date).Ok? ==>
      PreviewData(sections, date).value.title == "Generated Website" && PreviewData(sections, date).value.category == "Website"
  {
    PageColumnsWellTyped(sections);
    var cols := PageColumns(sections);
    if forall i, j :: 0 <= i < |cols| && 0 <= j < |cols[i]| ==> Falsy(cols[i][j]) {
      PreviewColumnsFalsy([], cols);
    } else {
      var i, j :| 0 <= i < |cols| && 0 <= j < |cols[i]| && !Falsy(cols[i][j]);
      PreviewColumnsTruthy([], cols, i, j);
    }
  }

  // ---------------------------------------------------------------------------------------
  // Against the toolbar's exporter

  predicate NoText(col: seq<Element>)
  {
    forall j :: 0 <= j < |col| ==> col[j].kind != "text"
  }

  /** With nothing left to skip and no `text` element, a step of either exporter does the same. */
  lemma StepsAgree(g: Grouping, e: Element, t: string)
    requires WellTyped(e) && e.kind != "text"
    ensures GroupStep(Acc(g.content, g.cur, false), e, t) == Acc(PreviewStep(g, e).content, PreviewStep(g, e).cur, false)
  {
  }

  lemma {:induction false} ElementsAgree(g: Grouping, col: seq<Element>, t: string)
    requires ElementsWellTyped(col) && NoText(col)
    ensures GroupElements(Acc(g.content, g.cur, false), col, t) ==
            Acc(PreviewElements(g, col).content, PreviewElements(g, col).cur, false)
    decreases |col|
  {
    if col != [] {
      var n := |col| - 1;
      PrefixWellTyped(col, n);
      assert NoText(col[..n]) by {
        assert forall j :: 0 <= j < n ==> col[..n][j] == col[j];
      }
      ElementsAgree(g, col[..n], t);
      StepsAgree(PreviewElements(g, col[..n]), col[n], t);
    }
  }

  /**
   * The two exporters group alike wherever the toolbar's has no heading left to skip and the
   * page has no `text` element: they differ only in the title skip and in how `text` is read.
   */
  lemma {:induction false} ExportersAgree(content: seq<Block>, cols: seq<seq<Element>>, t: string)
    requires PageWellTyped(cols) && forall i :: 0 <= i < |cols| ==> NoText(cols[i])
    ensures GroupColumns(Out(content, false), cols, t) == Out(PreviewColumns(content, cols), false)
    decreases |cols|
  {
    if cols != [] {
      var n := |cols| - 1;
      PagePrefixWellTyped(cols, n);
      assert forall i :: 0 <= i < n ==> cols[..n][i] == cols[i];
      ExportersAgree(content, cols[..n], t);
      ElementsAgree(Grouping(PreviewColumns(content, cols[..n]), []), cols[n], t);
    }
  }

  /**
   * Where they part: a heading followed by a text element is one block in the preview (the
   * text joins the paragraph) but two in the toolbar (the text opens its own block).
   */
  lemma HeadingThenText(h: Element, x: Element, t: string)
    requires h.kind == "heading" && h.content.Str? && h.content.text != ""
    requires x.kind == "text" && x.content.Str? && x.content.text != ""
    ensures ElementsWellTyped([h, x])
    ensures PreviewColumn([], [h, x]) == [[("subtitle", DText(h.content.text)), ("paragraph", DText(x.content.text))]]
    ensures GroupColumn(Out([], false), [h, x], t) ==
            Out([[("subtitle", DText(h.content.text))], [("subtitle", DText(x.content.text))]], false)
  {
    var col := [h, x];
    assert col[..1] == [h] && [h][..0] == [];
    assert ElementsWellTyped([h]) && ElementsWellTyped([]);
    assert PreviewElements(Grouping([], []), []) == Grouping([], []);
    var g1 := PreviewElements(Grouping([], []), [h]);
    assert g1 == PreviewStep(Grouping([], []), h);
    assert g1 == Grouping([], [("subtitle", DText(h.content.text))]);
    assert g1.cur[1..] == [];
    assert Get(g1.cur, "paragraph") == None;
    assert Put(g1.cur, "paragraph", DText(x.content.text)) == g1.cur + [("paragraph", DText(x.content.text))];
    assert AddParagraph(g1.cur, x.content.text) == g1.cur + [("paragraph", DText(x.content.text))];
    assert PreviewElements(Grouping([], []), col) == PreviewStep(g1, x);
    assert PreviewStep(g1, x) == Grouping([], g1.cur + [("paragraph", DText(x.content.text))]);
    var both: Block := [("subtitle", DText(h.content.text)), ("paragraph", DText(x.content.text))];
    assert g1.cur + [("paragraph", DText(x.content.text))] == both;
    assert PreviewColumn([], col) == Flush([], both) == [both];
    assert GroupElements(Acc([], [], false), [], t) == Acc([], [], false);
    var a1 := GroupElements(Acc([], [], false), [h], t);
    assert a1 == GroupStep(Acc([], [], false), h, t);
    assert a1 == Acc([], [("subtitle", DText(h.content.text))], false);
  }
}
