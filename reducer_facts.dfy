/** What each reducer action does to the state, stated against the state before it. */
module ReducerFacts {
  import opened Wrappers
  import opened Records
  import opened Styles
  import opened Seqs
  import opened Document
  import opened Reducer

  /** Position of element `j` among the elements before it that satisfy `p`. */
  function Rank(elems: seq<Element>, j: nat, p: Element -> bool): nat
    requires j <= |elems|
  {
    |Filter(elems[..j], p)|
  }

  /**
   * The shift of ADD_ELEMENT_TO_SECTION element by element: an element of the payload's
   * column at filtered position `idx >= k` gets `(order || idx) + 1`; every other element is
   * untouched.
   */
  lemma {:induction false} ShiftedOrdersAt(elems: seq<Element>, col: Option<int>, k: int, j: nat)
    requires j < |elems|
    ensures var idx := Rank(elems, j, MatchesPayloadColumn(col));
      ShiftedOrders(elems, col, k)[j] ==
        if MatchesPayloadColumn(col)(elems[j]) && idx >= k then elems[j].(order := Bumped(elems[j].order, idx))
        else elems[j]
    decreases |elems|
  {
    var n := |elems| - 1;
    if j < n {
      ShiftedOrdersAt(elems[..n], col, k, j);
      assert elems[..n][..j] == elems[..j];
    }
  }

  /**
   * The renumbering of MOVE_ELEMENT element by element: another element of the target column
   * at filtered position `idx >= from` gets `order := idx + 1`; every other element is
   * untouched.
   */
  lemma {:induction false} RenumberedAt(elems: seq<Element>, col: int, movedId: string, from: int, j: nat)
    requires j < |elems|
    ensures var idx := Rank(elems, j, TargetColumn(col, movedId));
      Renumbered(elems, col, movedId, from)[j] ==
        if TargetColumn(col, movedId)(elems[j]) && idx >= from then elems[j].(order := idx + 1)
        else elems[j]
    decreases |elems|
  {
    var n := |elems| - 1;
    if j < n {
      RenumberedAt(elems[..n], col, movedId, from, j);
      assert elems[..n][..j] == elems[..j];
    }
  }

  /**
   * ADD_SECTION inserts exactly one new, empty section with the default style, at the end or
   * where `splice` puts it, keeps the other sections in order and clears `dragOverIndex`.
   */
  lemma AddSectionEffect(st: State, columns: Option<int>, insertIndex: Option<int>, newId: string)
    ensures var st' := Apply(st, AddSection(columns, insertIndex, newId));
      var n := |st.sections|;
      var p := if insertIndex.Some? then SpliceIndex(insertIndex.value, n) else n;
      |st'.sections| == n + 1 && p <= n &&
      st'.sections[p] == Section(newId, ColumnCount(columns), [], DefaultSectionStyle()) &&
      st'.sections[..p] + st'.sections[p + 1..] == st.sections &&
      st'.dragOverIndex.None? &&
      st'.selected == st.selected && st'.isPreviewMode == st.isPreviewMode && st'.canvasStyle == st.canvasStyle
    ensures insertIndex.None? ==> Apply(st, AddSection(columns, insertIndex, newId)).sections[..|st.sections|] == st.sections
  {
    var st' := Apply(st, AddSection(columns, insertIndex, newId));
    var n := |st.sections|;
    var p := if insertIndex.Some? then SpliceIndex(insertIndex.value, n) else n;
    assert st'.sections == st.sections[..p] + [NewSection(columns, newId)] + st.sections[p..];
    assert st'.sections[..p] == st.sections[..p];
    assert st'.sections[p + 1..] == st.sections[p..];
  }

  /**
   * ADD_ELEMENT_TO_SECTION: a section with another id is untouched; the matching section
   * gets exactly one new element at the end of its list, with the payload's kind, content
   * and style, `columnIndex || 0`, `insertIndex ?? 999` as order, and empty link, alt and
   * tab flag; an existing element changes only its order, and only when it sits in the
   * payload's column at filtered position `idx >= insertIndex` and the index is inside the
   * column.
   */
  lemma AddElementEffect(st: State, a: Action, i: nat)
    requires a.AddElementToSection? && i < |st.sections|
    ensures var st' := Apply(st, a);
      |st'.sections| == |st.sections| && st'.selected == st.selected &&
      st'.isPreviewMode == st.isPreviewMode &&
      st'.dragOverIndex == st.dragOverIndex && st'.canvasStyle == st.canvasStyle
    ensures var s, s' := st.sections[i], Apply(st, a).sections[i];
      s.id != a.sectionId ==> s' == s
    ensures var s, s' := st.sections[i], Apply(st, a).sections[i];
      var es, es' := s.elements, s'.elements;
      var m := MatchesPayloadColumn(a.columnIndex);
      s.id == a.sectionId ==>
        s' == s.(elements := es') && |es'| == |es| + 1 &&
        es'[|es|].id == a.newId && es'[|es|].kind == a.kind && es'[|es|].content == a.content &&
        es'[|es|].style == a.style &&
        es'[|es|].columnIndex == (if a.columnIndex.Some? then a.columnIndex.value else 0) &&
        es'[|es|].order == (if a.insertIndex.Some? then a.insertIndex.value else 999) &&
        es'[|es|].link == "" && es'[|es|].alt == "" && !es'[|es|].openInNewTab &&
        forall j :: 0 <= j < |es| ==>
          es'[j] == if a.insertIndex.Some? && a.insertIndex.value < |Filter(es, m)| &&
                       m(es[j]) && Rank(es, j, m) >= a.insertIndex.value
                    then es[j].(order := Bumped(es[j].order, Rank(es, j, m)))
                    else es[j]
  {
    var s := st.sections[i];
    if s.id == a.sectionId && ShiftsColumn(s.elements, a) {
      forall j | 0 <= j < |s.elements| {
        ShiftedOrdersAt(s.elements, a.columnIndex, a.insertIndex.value, j);
      }
    }
  }

  /** ADD_ELEMENT_TO_SECTION naming no existing section changes nothing. */
  lemma AddElementUnknownSection(st: State, a: Action)
    requires a.AddElementToSection?
    requires forall i :: 0 <= i < |st.sections| ==> st.sections[i].id != a.sectionId
    ensures Apply(st, a) == st
  {
    assert Apply(st, a).sections == st.sections;
  }

  /**
   * MOVE_ELEMENT in the matching section: without an element of that id nothing changes;
   * otherwise the list keeps its length, the first element with the id gets the new column
   * and order, every other element of the target column at filtered position `idx >=
   * newOrder` gets order `idx + 1`, and every other element is untouched.
   */
  lemma MoveElementEffect(st: State, a: Action, i: nat)
    requires a.MoveElement? && i < |st.sections|
    ensures var st' := Apply(st, a);
      |st'.sections| == |st.sections| && st'.selected == st.selected &&
      st'.isPreviewMode == st.isPreviewMode &&
      st'.dragOverIndex == st.dragOverIndex && st'.canvasStyle == st.canvasStyle
    ensures var s, s' := st.sections[i], Apply(st, a).sections[i];
      s.id != a.sectionId ==> s' == s
    ensures var s, s' := st.sections[i], Apply(st, a).sections[i];
      var es, es' := s.elements, s'.elements;
      s.id == a.sectionId ==>
        s' == s.(elements := es') && |es'| == |es| &&
        match FindIndex(es, a.elementId)
        case None => es' == es
        case Some(p) =>
          es'[p] == es[p].(columnIndex := a.newColumnIndex, order := a.newOrder) &&
          forall j :: 0 <= j < |es| && j != p ==>
            var t := TargetColumn(a.newColumnIndex, a.elementId);
            es'[j] == if t(es[j]) && Rank(es, j, t) >= a.newOrder then es[j].(order := Rank(es, j, t) + 1)
                      else es[j]
  {
    var s := st.sections[i];
    if s.id == a.sectionId {
      MovedElementsEffect(s.elements, a);
    }
  }

  /** The element-level half of `MoveElementEffect`. */
  lemma MovedElementsEffect(es: seq<Element>, a: Action)
    requires a.MoveElement?
    ensures var es' := MovedElements(es, a);
      |es'| == |es| &&
      match FindIndex(es, a.elementId)
      case None => es' == es
      case Some(p) =>
        es'[p] == es[p].(columnIndex := a.newColumnIndex, order := a.newOrder) &&
        forall j :: 0 <= j < |es| && j != p ==>
          var t := TargetColumn(a.newColumnIndex, a.elementId);
          es'[j] == if t(es[j]) && Rank(es, j, t) >= a.newOrder then es[j].(order := Rank(es, j, t) + 1)
                    else es[j]
  {
    match FindIndex(es, a.elementId)
    case None =>
    case Some(p) =>
      var t := TargetColumn(a.newColumnIndex, a.elementId);
      var placed := es[p := es[p].(columnIndex := a.newColumnIndex, order := a.newOrder)];
      RenumberedAt(placed, a.newColumnIndex, a.elementId, a.newOrder, p);
      forall j | 0 <= j < |es| && j != p
        ensures MovedElements(es, a)[j] ==
          if t(es[j]) && Rank(es, j, t) >= a.newOrder then es[j].(order := Rank(es, j, t) + 1) else es[j]
      {
        RenumberedAt(placed, a.newColumnIndex, a.elementId, a.newOrder, j);
        if p < j {
          assert placed[..j] == es[..j][p := placed[p]];
          FilterUpdateRejected(es[..j], p, placed[p], t);
        } else {
          assert placed[..j] == es[..j];
        }
      }
  }

  /** MOVE_ELEMENT for an id no element of the section carries changes nothing. */
  lemma MoveMissingElement(st: State, a: Action)
    requires a.MoveElement?
    requires forall i, j :: 0 <= i < |st.sections| && 0 <= j < |st.sections[i].elements| ==>
               st.sections[i].elements[j].id != a.elementId
    ensures Apply(st, a) == st
  {
    forall i | 0 <= i < |st.sections| ensures MoveInSection(st.sections[i], a) == st.sections[i] {
      var es := st.sections[i].elements;
      assert FindIndex(es, a.elementId).None?;
    }
    assert Apply(st, a).sections == st.sections;
  }

  /**
   * The style of an update is a shallow merge: a key the update's style defines takes the new
   * value, every other key keeps the old value; without a style in the update the style is
   * kept as it was.
   */
  lemma MergedStyleGet(current: Style, style: Option<Style>, k: string)
    requires style.Some? ==> DistinctKeys(style.value)
    ensures Get(MergedStyle(current, style), k) ==
      if style.Some? && HasKey(style.value, k) then Get(style.value, k) else Get(current, k)
  {
    if style.Some? {
      GetMerge(current, style.value, k);
    }
  }

  /**
   * UPDATE_ELEMENT touches only the elements with that id: those take every field the update
   * carries and the merged style; the selection follows only when its id matches.
   */
  lemma UpdateElementEffect(st: State, id: string, u: Updates, i: nat, j: nat)
    requires i < |st.sections| && j < |st.sections[i].elements|
    ensures var st' := Apply(st, UpdateElement(id, u));
      var e := st.sections[i].elements[j];
      |st'.sections| == |st.sections| &&
      st'.sections[i] == st.sections[i].(elements := st'.sections[i].elements) &&
      |st'.sections[i].elements| == |st.sections[i].elements| &&
      (e.id != id ==> st'.sections[i].elements[j] == e) &&
      (e.id == id ==>
         st'.sections[i].elements[j] ==
           e.(content := if u.content.Some? then u.content.value else e.content,
              link := if u.link.Some? then u.link.value else e.link,
              openInNewTab := if u.openInNewTab.Some? then u.openInNewTab.value else e.openInNewTab,
              alt := if u.alt.Some? then u.alt.value else e.alt,
              style := MergedStyle(e.style, u.style)))
    ensures var st' := Apply(st, UpdateElement(id, u));
      (st.selected.None? || st.selected.value.Id() != id ==> st'.selected == st.selected) &&
      (st.selected.Some? && st.selected.value.Id() == id ==>
         st'.selected.Some? && st'.selected.value.Id() == id)
    ensures var st' := Apply(st, UpdateElement(id, u));
      st.selected.Some? && st.selected.value.SelElement? && st.selected.value.element.id == id ==>
        var e := st.selected.value.element;
        st'.selected ==
          Some(SelElement(e.(content := if u.content.Some? then u.content.value else e.content,
                             link := if u.link.Some? then u.link.value else e.link,
                             openInNewTab := if u.openInNewTab.Some? then u.openInNewTab.value else e.openInNewTab,
                             alt := if u.alt.Some? then u.alt.value else e.alt,
                             style := MergedStyle(e.style, u.style))))
    ensures var st' := Apply(st, UpdateElement(id, u));
      st.selected.Some? && st.selected.value.SelSection? && st.selected.value.section.id == id ==>
        var s := st.selected.value.section;
        st'.selected == Some(SelSection(s.(style := MergedStyle(s.style, u.style))))
    ensures var st' := Apply(st, UpdateElement(id, u));
      st'.isPreviewMode == st.isPreviewMode && st'.dragOverIndex == st.dragOverIndex && st'.canvasStyle == st.canvasStyle
  {
  }

  /**
   * UPDATE_SECTION touches only the sections with that id, and in them only the style; the
   * selection follows only when its id matches.
   */
  lemma UpdateSectionEffect(st: State, id: string, u: Updates, i: nat)
    requires i < |st.sections|
    ensures var st' := Apply(st, UpdateSection(id, u));
      var s := st.sections[i];
      |st'.sections| == |st.sections| &&
      st'.sections[i] == (if s.id == id then s.(style := MergedStyle(s.style, u.style)) else s)
    ensures var st' := Apply(st, UpdateSection(id, u));
      (st.selected.None? || st.selected.value.Id() != id ==> st'.selected == st.selected) &&
      (st.selected.Some? && st.selected.value.Id() == id ==>
         st'.selected.Some? && st'.selected.value.Id() == id)
    ensures var st' := Apply(st, UpdateSection(id, u));
      st.selected.Some? && st.selected.value.SelElement? && st.selected.value.element.id == id ==>
        var e := st.selected.value.element;
        st'.selected ==
          Some(SelElement(e.(content := if u.content.Some? then u.content.value else e.content,
                             link := if u.link.Some? then u.link.value else e.link,
                             openInNewTab := if u.openInNewTab.Some? then u.openInNewTab.value else e.openInNewTab,
                             alt := if u.alt.Some? then u.alt.value else e.alt,
                             style := MergedStyle(e.style, u.style))))
    ensures var st' := Apply(st, UpdateSection(id, u));
      st.selected.Some? && st.selected.value.SelSection? && st.selected.value.section.id == id ==>
        var s := st.selected.value.section;
        st'.selected == Some(SelSection(s.(style := MergedStyle(s.style, u.style))))
    ensures var st' := Apply(st, UpdateSection(id, u));
      st'.isPreviewMode == st.isPreviewMode && st'.dragOverIndex == st.dragOverIndex && st'.canvasStyle == st.canvasStyle
  {
  }

  /**
   * DELETE_ELEMENT keeps every section, removes from each every element with that id and no
   * other, keeps the survivors in their order, each once, and clears the selection exactly
   * when the selected id is that id.
   */
  lemma DeleteElementEffect(st: State, id: string, i: nat)
    requires i < |st.sections|
    ensures var st' := Apply(st, DeleteElement(id));
      |st'.sections| == |st.sections| &&
      st'.sections[i] == st.sections[i].(elements := st'.sections[i].elements) &&
      forall e :: e in st'.sections[i].elements <==> e in st.sections[i].elements && e.id != id
    ensures var es, es' := st.sections[i].elements, Apply(st, DeleteElement(id)).sections[i].elements;
      var ks := Kept(es, IdIsNot(id));
      |es'| == |ks| &&
      (forall k :: 0 <= k < |ks| ==> ks[k] < |es| && es'[k] == es[ks[k]]) &&
      (forall k, l :: 0 <= k < l < |ks| ==> ks[k] < ks[l]) &&
      (forall j :: 0 <= j < |es| ==> (es[j].id != id <==> j in ks))
    ensures var st' := Apply(st, DeleteElement(id));
      st'.selected.None? <==> (st.selected.None? || st.selected.value.Id() == id)
    ensures var st' := Apply(st, DeleteElement(id));
      st.selected.Some? && st.selected.value.Id() != id ==> st'.selected == st.selected
    ensures var st' := Apply(st, DeleteElement(id));
      st'.isPreviewMode == st.isPreviewMode && st'.dragOverIndex == st.dragOverIndex && st'.canvasStyle == st.canvasStyle
  {
    forall e {
      FilterMembers(st.sections[i].elements, IdIsNot(id), e);
    }
    FilterPositions(st.sections[i].elements, IdIsNot(id));
  }

  /**
   * DELETE_SECTION removes every section with that id, elements and all, keeps the others in
   * order, and always clears the selection.
   */
  lemma DeleteSectionEffect(st: State, id: string)
    ensures var st' := Apply(st, DeleteSection(id));
      (forall s :: s in st'.sections <==> s in st.sections && s.id != id) &&
      |st'.sections| <= |st.sections| && st'.selected.None?
    ensures var st' := Apply(st, DeleteSection(id));
      st'.isPreviewMode == st.isPreviewMode && st'.dragOverIndex == st.dragOverIndex && st'.canvasStyle == st.canvasStyle
    ensures (forall i :: 0 <= i < |st.sections| ==> st.sections[i].id != id) ==>
      Apply(st, DeleteSection(id)).sections == st.sections
  {
    forall s {
      FilterMembers(st.sections, SectionIdIsNot(id), s);
    }
    if forall i :: 0 <= i < |st.sections| ==> st.sections[i].id != id {
      FilterAll(st.sections, SectionIdIsNot(id));
    }
  }

  /**
   * The sections DELETE_SECTION keeps are the originals at strictly increasing positions,
   * each once, and a position is kept exactly when its section has another id.
   */
  lemma DeleteSectionKeepsOrder(st: State, id: string)
    ensures var ss, ss' := st.sections, Apply(st, DeleteSection(id)).sections;
      var ks := Kept(ss, SectionIdIsNot(id));
      |ss'| == |ks| &&
      (forall k :: 0 <= k < |ks| ==> ks[k] < |ss| && ss'[k] == ss[ks[k]]) &&
      (forall k, l :: 0 <= k < l < |ks| ==> ks[k] < ks[l]) &&
      (forall j :: 0 <= j < |ss| ==> (ss[j].id != id <==> j in ks))
  {
    FilterPositions(st.sections, SectionIdIsNot(id));
  }

  /** TOGGLE_PREVIEW flips the preview flag and drops the selection; twice restores the flag. */
  lemma TogglePreviewTwice(st: State)
    ensures Apply(st, TogglePreview).isPreviewMode == !st.isPreviewMode
    ensures Apply(st, TogglePreview).selected.None?
    ensures Apply(Apply(st, TogglePreview), TogglePreview) == st.(selected := None)
  {
  }

  /** LOAD_BLOG_DATA replaces the sections, drops the selection, keeps the canvas style unless one is given. */
  lemma LoadBlogDataEffect(st: State, sections: seq<Section>, canvasStyle: Option<Style>)
    ensures var st' := Apply(st, LoadBlogData(sections, canvasStyle));
      st'.sections == sections && st'.selected.None? &&
      st'.canvasStyle == (if canvasStyle.Some? then canvasStyle.value else st.canvasStyle) &&
      st'.isPreviewMode == st.isPreviewMode && st'.dragOverIndex == st.dragOverIndex
  {
  }

  /** CLEAR_CANVAS returns to the initial state but keeps the current canvas style. */
  lemma ClearCanvasEffect(st: State)
    ensures var st' := Apply(st, ClearCanvas);
      st'.sections == [] && st'.selected.None? && !st'.isPreviewMode && st'.dragOverIndex.None? &&
      st'.canvasStyle == st.canvasStyle
    ensures Apply(Apply(st, ClearCanvas), ClearCanvas) == Apply(st, ClearCanvas)
  {
  }

  /** SELECT_ELEMENT and SET_DRAG_OVER_INDEX set their one field; an unknown action changes nothing. */
  lemma SimpleActionsEffect(st: State, sel: Option<Selected>, index: Option<int>, name: string)
    ensures Apply(st, SelectElement(sel)) == st.(selected := sel)
    ensures Apply(st, SetDragOverIndex(index)) == st.(dragOverIndex := index)
    ensures Apply(st, Unknown(name)) == st
  {
  }
}
