/**
 * The page being edited: sections, each with a number of columns and a flat list of
 * elements that name their column and carry a sort key `order`; plus the editor state the
 * reducer keeps beside them.
 */
module Document {
  import opened Wrappers
  import opened Records
  import opened Styles
  import opened Seqs

  /**
   * Element content: a string for most element types, an object for image-caption and
   * table elements.
   */
  datatype Content =
    | Str(text: string)
    | Caption(imageUrl: string, caption: string, alt: string)
    | Grid(headers: seq<string>, rows: seq<seq<string>>)

  /**
   * An element. `link`, `alt` and `openInNewTab` hold `''`, `''` and `false` where the
   * source leaves them undefined: every reader goes through `||`, so the two coincide.
   */
  datatype Element = Element(
    id: string,
    kind: string,
    content: Content,
    style: Style,
    columnIndex: int,
    order: int,
    link: string,
    openInNewTab: bool,
    alt: string)

  datatype Section = Section(id: string, columns: int, elements: seq<Element>, style: Style)

  /** The selection: a snapshot of an element, or of a section (`{...section, type: 'section'}`). */
  datatype Selected = SelElement(element: Element) | SelSection(section: Section)
  {
    function Id(): string
    {
      match this
      case SelElement(e) => e.id
      case SelSection(s) => s.id
    }
  }

  datatype State = State(
    sections: seq<Section>,
    selected: Option<Selected>,
    isPreviewMode: bool,
    dragOverIndex: Option<int>,
    canvasStyle: Style)

  function DefaultCanvasStyle(): Style
  {
    [("backgroundColor", "#ffffff"), ("minHeight", "100vh"), ("fontFamily", "Arial, sans-serif")]
  }

  function InitialState(): (s: State)
    ensures s.sections == [] && s.selected.None? && !s.isPreviewMode && s.dragOverIndex.None?
    ensures Get(s.canvasStyle, "minHeight") == Some("100vh")
  {
    State([], None, false, None, DefaultCanvasStyle())
  }

  /** Elements whose `columnIndex` is `c`. */
  function InColumn(c: int): Element -> bool
  {
    (e: Element) => e.columnIndex == c
  }

  function OrderIs(k: int): Element -> bool
  {
    (e: Element) => e.order == k
  }

  predicate SortedByOrder(t: seq<Element>)
  {
    forall i, j :: 0 <= i < j < |t| ==> t[i].order <= t[j].order
  }

  /** Place `x` after every element whose order is not greater than its own. */
  function InsertByOrder(t: seq<Element>, x: Element): seq<Element>
    decreases |t|
  {
    if t == [] || t[|t| - 1].order <= x.order then t + [x]
    else InsertByOrder(t[..|t| - 1], x) + [t[|t| - 1]]
  }

  /** A stable sort by ascending order (a missing order counts as 0, which `order` already is). */
  function SortByOrder(s: seq<Element>): seq<Element>
    decreases |s|
  {
    if s == [] then [] else InsertByOrder(SortByOrder(s[..|s| - 1]), s[|s| - 1])
  }

  lemma {:induction false} InsertMultiset(t: seq<Element>, x: Element)
    ensures multiset(InsertByOrder(t, x)) == multiset(t) + multiset{x}
    decreases |t|
  {
    if !(t == [] || t[|t| - 1].order <= x.order) {
      InsertMultiset(t[..|t| - 1], x);
      assert t == t[..|t| - 1] + [t[|t| - 1]];
    }
  }

  lemma {:induction false} InsertSorted(t: seq<Element>, x: Element)
    requires SortedByOrder(t)
    ensures SortedByOrder(InsertByOrder(t, x))
    decreases |t|
  {
    if !(t == [] || t[|t| - 1].order <= x.order) {
      var init, last := t[..|t| - 1], t[|t| - 1];
      InsertSorted(init, x);
      InsertMultiset(init, x);
      var u := InsertByOrder(init, x);
      forall i | 0 <= i < |u| ensures u[i].order <= last.order {
        assert u[i] in multiset(init) + multiset{x} by { assert u[i] in multiset(u); }
        if u[i] in init {
          var j :| 0 <= j < |init| && init[j] == u[i];
          assert t[j] == init[j];
        }
      }
    }
  }

  /** Stability: among elements with the same order the original relative order is kept. */
  lemma {:induction false} InsertStable(t: seq<Element>, x: Element, k: int)
    ensures Filter(InsertByOrder(t, x), OrderIs(k)) == Filter(t, OrderIs(k)) + (if x.order == k then [x] else [])
    decreases |t|
  {
    var p := OrderIs(k);
    if t == [] || t[|t| - 1].order <= x.order {
      FilterSnoc(t, x, p);
    } else {
      var init, last := t[..|t| - 1], t[|t| - 1];
      InsertStable(init, x, k);
      FilterSnoc(InsertByOrder(init, x), last, p);
      assert t == init + [last];
      FilterSnoc(init, last, p);
    }
  }

  /** The sort returns the same elements, sorted by order, equal orders kept in input order. */
  lemma {:induction false} SortByOrderCorrect(s: seq<Element>)
    ensures SortedByOrder(SortByOrder(s))
    ensures multiset(SortByOrder(s)) == multiset(s)
    ensures forall k :: Filter(SortByOrder(s), OrderIs(k)) == Filter(s, OrderIs(k))
    decreases |s|
  {
    if s != [] {
      var init, last := s[..|s| - 1], s[|s| - 1];
      SortByOrderCorrect(init);
      InsertSorted(SortByOrder(init), last);
      InsertMultiset(SortByOrder(init), last);
      assert s == init + [last];
      forall k ensures Filter(SortByOrder(s), OrderIs(k)) == Filter(s, OrderIs(k)) {
        InsertStable(SortByOrder(init), last, k);
      }
    }
  }

  /** A column as the editor, the preview and the exporters display it: filtered, then sorted. */
  function ColumnView(section: Section, c: int): (r: seq<Element>)
  {
    SortByOrder(Filter(section.elements, InColumn(c)))
  }

  /** Each displayed column holds exactly that column's elements, in display order. */
  lemma ColumnViewCorrect(section: Section, c: int)
    ensures SortedByOrder(ColumnView(section, c))
    ensures forall e :: e in ColumnView(section, c) <==> e in section.elements && e.columnIndex == c
    ensures |ColumnView(section, c)| == |Filter(section.elements, InColumn(c))|
  {
    var f := Filter(section.elements, InColumn(c));
    SortByOrderCorrect(f);
    forall e ensures e in ColumnView(section, c) <==> e in section.elements && e.columnIndex == c {
      FilterMembers(section.elements, InColumn(c), e);
      assert e in ColumnView(section, c) <==> e in multiset(ColumnView(section, c));
      assert e in f <==> e in multiset(f);
    }
    assert |multiset(ColumnView(section, c))| == |multiset(f)|;
  }

  /**
   * Element types whose content is a string: the heading, text, paragraph, image, video and
   * button editors only ever store strings.
   */
  predicate StringKind(kind: string)
  {
    kind == "heading" || kind == "text" || kind == "paragraph" || kind == "image" || kind == "video" || kind == "button"
  }

  predicate WellTyped(e: Element)
  {
    StringKind(e.kind) ==> e.content.Str?
  }

  predicate WellTypedSections(sections: seq<Section>)
  {
    forall i, j :: 0 <= i < |sections| && 0 <= j < |sections[i].elements| ==> WellTyped(sections[i].elements[j])
  }

  /** `${element.content}` in a template string: the text itself, `[object Object]` for an object. */
  function ContentString(c: Content): string
  {
    if c.Str? then c.text else "[object Object]"
  }
}
