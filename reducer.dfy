/**
 * The builder's reducer: one state transition per action. `Apply` is the reducer itself; the
 * two actions whose source walks a column with a `forEach` and rewrites `order` in place
 * (adding an element into the middle of a column, moving an element) are also written as
 * methods with loops, proved equal to the functions `Apply` uses.
 */
module Reducer {
  import opened Wrappers
  import opened Records
  import opened Styles
  import opened Seqs
  import opened Document

  /** The keys an update may carry; `None` is a key the update does not mention. */
  datatype Updates = Updates(
    content: Option<Content>,
    link: Option<string>,
    openInNewTab: Option<bool>,
    alt: Option<string>,
    style: Option<Style>)

  /** The reducer's actions. Fresh ids (`uuidv4()`) arrive with the action as `newId`. */
  datatype Action =
    | AddSection(columns: Option<int>, insertIndex: Option<int>, newId: string)
    | AddElementToSection(sectionId: string, kind: string, content: Content, style: Style,
                          columnIndex: Option<int>, insertIndex: Option<int>, newId: string)
    | MoveElement(sectionId: string, elementId: string, newColumnIndex: int, newOrder: int)
    | UpdateElement(id: string, updates: Updates)
    | UpdateSection(id: string, updates: Updates)
    | DeleteElement(id: string)
    | DeleteSection(id: string)
    | SelectElement(element: Option<Selected>)
    | SetDragOverIndex(index: Option<int>)
    | TogglePreview
    | LoadBlogData(sections: seq<Section>, canvasStyle: Option<Style>)
    | ClearCanvas
    | Unknown(name: string)

  // ---------------------------------------------------------------- ADD_SECTION

  function DefaultSectionStyle(): Style
  {
    [("padding", "40px 20px"), ("backgroundColor", "#ffffff"), ("borderBottom", "1px solid #f0f0f0"),
     ("minHeight", "100px"), ("display", "flex"), ("alignItems", "stretch"), ("gap", "20px"),
     ("transition", "all 0.3s ease")]
  }

  /** `columns || 1`: a missing or zero column count becomes one column. */
  function ColumnCount(columns: Option<int>): (n: int)
    ensures n != 0
    ensures columns.Some? && columns.value != 0 ==> n == columns.value
    ensures columns.None? || columns.value == 0 ==> n == 1
  {
    match columns
    case Some(c) => if c != 0 then c else 1
    case None => 1
  }

  function NewSection(columns: Option<int>, id: string): (s: Section)
  {
    Section(id, ColumnCount(columns), [], DefaultSectionStyle())
  }

  /** Where `Array.prototype.splice(start, 0, x)` inserts into an array of length `n`. */
  function SpliceIndex(start: int, n: nat): (p: nat)
    ensures p <= n
    ensures 0 <= start <= n ==> p == start
    ensures start > n ==> p == n
    ensures start < 0 ==> p == if n + start < 0 then 0 else n + start
  {
    if start < 0 then (if n + start < 0 then 0 else n + start)
    else if start > n then n
    else start
  }

  function InsertAt<T>(s: seq<T>, p: nat, x: T): seq<T>
    requires p <= |s|
  {
    s[..p] + [x] + s[p..]
  }

  // ---------------------------------------------------------------- ADD_ELEMENT_TO_SECTION

  /**
   * Strict comparison of an element's column with the payload's raw column index, so a
   * payload without a column index matches no element.
   */
  function MatchesPayloadColumn(col: Option<int>): Element -> bool
  {
    (e: Element) => col.Some? && e.columnIndex == col.value
  }

  function NewElement(a: Action): (e: Element)
    requires a.AddElementToSection?
  {
    Element(a.newId, a.kind, a.content, a.style, a.columnIndex.GetOr(0), a.insertIndex.GetOr(999), "", false, "")
  }

  /** `(order || idx) + 1`. */
  function Bumped(order: int, idx: int): int
  {
    (if order == 0 then idx else order) + 1
  }

  /**
   * The order rewrite of the `forEach` over the column's elements: the element at position
   * `idx` of the filtered column gets `(order || idx) + 1` when `idx >= k`.
   */
  function ShiftedOrders(elems: seq<Element>, col: Option<int>, k: int): (r: seq<Element>)
    ensures |r| == |elems|
    decreases |elems|
  {
    if elems == [] then []
    else
      var init, last := elems[..|elems| - 1], elems[|elems| - 1];
      var idx := |Filter(init, MatchesPayloadColumn(col))|;
      ShiftedOrders(init, col, k) +
        [if MatchesPayloadColumn(col)(last) && idx >= k then last.(order := Bumped(last.order, idx)) else last]
  }

  /** The in-place loop of src/context/BuilderContext.js:76-83, over a copy of the element list. */
  method ShiftOrders(elems: seq<Element>, col: Option<int>, k: int) returns (r: seq<Element>)
    ensures r == ShiftedOrders(elems, col, k)
  {
    r := [];
    var idx := 0;
    var j := 0;
    while j < |elems|
      invariant 0 <= j <= |elems|
      invariant r == ShiftedOrders(elems[..j], col, k)
      invariant idx == |Filter(elems[..j], MatchesPayloadColumn(col))|
    {
      var el := elems[j];
      ShiftedStep(elems, j, col, k);
      if col.Some? && el.columnIndex == col.value {
        if idx >= k {
          el := el.(order := Bumped(el.order, idx));
        }
        idx := idx + 1;
      }
      r := r + [el];
      j := j + 1;
    }
    assert elems[..|elems|] == elems;
  }

  /** One more element of the walk: its rewrite goes last, and the column count grows when it matches. */
  lemma ShiftedStep(elems: seq<Element>, j: nat, col: Option<int>, k: int)
    requires j < |elems|
    ensures var el, idx := elems[j], |Filter(elems[..j], MatchesPayloadColumn(col))|;
      ShiftedOrders(elems[..j + 1], col, k) == ShiftedOrders(elems[..j], col, k) +
        [if MatchesPayloadColumn(col)(el) && idx >= k then el.(order := Bumped(el.order, idx)) else el] &&
      |Filter(elems[..j + 1], MatchesPayloadColumn(col))| == idx + (if MatchesPayloadColumn(col)(el) then 1 else 0)
  {
    assert elems[..j + 1] == elems[..j] + [elems[j]];
    FilterSnoc(elems[..j], elems[j], MatchesPayloadColumn(col));
    assert elems[..j + 1][..j] == elems[..j];
  }

  /** Whether adding shifts the column: only an explicit index inside the current column. */
  function ShiftsColumn(elems: seq<Element>, a: Action): bool
    requires a.AddElementToSection?
  {
    a.insertIndex.Some? && a.insertIndex.value < |Filter(elems, MatchesPayloadColumn(a.columnIndex))|
  }

  function AddToSection(s: Section, a: Action): Section
    requires a.AddElementToSection?
  {
    if s.id != a.sectionId then s
    else
      var kept := if ShiftsColumn(s.elements, a) then ShiftedOrders(s.elements, a.columnIndex, a.insertIndex.value)
                  else s.elements;
      s.(elements := kept + [NewElement(a)])
  }

  // ---------------------------------------------------------------- MOVE_ELEMENT

  /** The position of the first element with the id. */
  function FindIndex(elems: seq<Element>, id: string): (r: Option<nat>)
    ensures r.Some? ==> r.value < |elems| && elems[r.value].id == id &&
                        forall j :: 0 <= j < r.value ==> elems[j].id != id
    ensures r.None? ==> forall j :: 0 <= j < |elems| ==> elems[j].id != id
  {
    if elems == [] then None
    else if elems[0].id == id then Some(0)
    else
      match FindIndex(elems[1..], id)
      case None => None
      case Some(j) => Some(j + 1)
  }

  /** The other elements of the target column. */
  function TargetColumn(col: int, movedId: string): Element -> bool
  {
    (e: Element) => e.columnIndex == col && e.id != movedId
  }

  /** The target column's walk: the element at filtered position `idx >= from` gets order `idx + 1`. */
  function Renumbered(elems: seq<Element>, col: int, movedId: string, from: int): (r: seq<Element>)
    ensures |r| == |elems|
    decreases |elems|
  {
    if elems == [] then []
    else
      var init, last := elems[..|elems| - 1], elems[|elems| - 1];
      var idx := |Filter(init, TargetColumn(col, movedId))|;
      Renumbered(init, col, movedId, from) +
        [if TargetColumn(col, movedId)(last) && idx >= from then last.(order := idx + 1) else last]
  }

  /** The in-place loop of src/context/BuilderContext.js:115-119. */
  method RenumberColumn(elems: seq<Element>, col: int, movedId: string, from: int) returns (r: seq<Element>)
    ensures r == Renumbered(elems, col, movedId, from)
  {
    r := [];
    var idx := 0;
    var j := 0;
    while j < |elems|
      invariant 0 <= j <= |elems|
      invariant r == Renumbered(elems[..j], col, movedId, from)
      invariant idx == |Filter(elems[..j], TargetColumn(col, movedId))|
    {
      var el := elems[j];
      RenumberedStep(elems, j, col, movedId, from);
      if el.columnIndex == col && el.id != movedId {
        if idx >= from {
          el := el.(order := idx + 1);
        }
        idx := idx + 1;
      }
      r := r + [el];
      j := j + 1;
    }
    assert elems[..|elems|] == elems;
  }

  /** One more element of the target column's walk. */
  lemma RenumberedStep(elems: seq<Element>, j: nat, col: int, movedId: string, from: int)
    requires j < |elems|
    ensures var el, idx := elems[j], |Filter(elems[..j], TargetColumn(col, movedId))|;
      Renumbered(elems[..j + 1], col, movedId, from) == Renumbered(elems[..j], col, movedId, from) +
        [if TargetColumn(col, movedId)(el) && idx >= from then el.(order := idx + 1) else el] &&
      |Filter(elems[..j + 1], TargetColumn(col, movedId))| == idx + (if TargetColumn(col, movedId)(el) then 1 else 0)
  {
    assert elems[..j + 1] == elems[..j] + [elems[j]];
    FilterSnoc(elems[..j], elems[j], TargetColumn(col, movedId));
    assert elems[..j + 1][..j] == elems[..j];
  }

  function MovedElements(elems: seq<Element>, a: Action): seq<Element>
    requires a.MoveElement?
  {
    match FindIndex(elems, a.elementId)
    case None => elems
    case Some(p) =>
      var placed := elems[p := elems[p].(columnIndex := a.newColumnIndex, order := a.newOrder)];
      Renumbered(placed, a.newColumnIndex, a.elementId, a.newOrder)
  }

  function MoveInSection(s: Section, a: Action): Section
    requires a.MoveElement?
  {
    if s.id != a.sectionId then s else s.(elements := MovedElements(s.elements, a))
  }

  // ---------------------------------------------------------------- UPDATE_ELEMENT / UPDATE_SECTION

  /** A style in the update is merged over the current one (new keys win); without one the style stays. */
  function MergedStyle(current: Style, style: Option<Style>): Style
  {
    match style
    case Some(st) => Merge(current, st)
    case None => current
  }

  /** Every field the update carries replaces the element's, and the style is merged. */
  function UpdatedElement(e: Element, u: Updates): Element
  {
    e.(content := u.content.GetOr(e.content),
       link := u.link.GetOr(e.link),
       openInNewTab := u.openInNewTab.GetOr(e.openInNewTab),
       alt := u.alt.GetOr(e.alt),
       style := MergedStyle(e.style, u.style))
  }

  /** A section takes only the style part of an update, merged over its own. */
  function UpdatedSection(s: Section, u: Updates): Section
  {
    s.(style := MergedStyle(s.style, u.style))
  }

  /** The selection snapshot follows an update of the item with its id. */
  function UpdatedSelection(sel: Option<Selected>, id: string, u: Updates): Option<Selected>
  {
    match sel
    case None => None
    case Some(SelElement(e)) => if e.id == id then Some(SelElement(UpdatedElement(e, u))) else sel
    case Some(SelSection(s)) => if s.id == id then Some(SelSection(UpdatedSection(s, u))) else sel
  }

  function UpdateInSection(s: Section, id: string, u: Updates): Section
  {
    s.(elements := seq(|s.elements|, j requires 0 <= j < |s.elements| =>
        if s.elements[j].id == id then UpdatedElement(s.elements[j], u) else s.elements[j]))
  }

  // ---------------------------------------------------------------- DELETE_ELEMENT / DELETE_SECTION

  function IdIsNot(id: string): Element -> bool
  {
    (e: Element) => e.id != id
  }

  function SectionIdIsNot(id: string): Section -> bool
  {
    (s: Section) => s.id != id
  }

  function SelectionWithout(sel: Option<Selected>, id: string): Option<Selected>
  {
    if sel.Some? && sel.value.Id() == id then None else sel
  }

  // ---------------------------------------------------------------- the reducer

  function MapSections(ss: seq<Section>, f: Section -> Section): (r: seq<Section>)
    ensures |r| == |ss| && forall i :: 0 <= i < |ss| ==> r[i] == f(ss[i])
  {
    seq(|ss|, i requires 0 <= i < |ss| => f(ss[i]))
  }

  function Apply(st: State, a: Action): State
  {
    match a
    case AddSection(columns, insertIndex, newId) =>
      var ns := NewSection(columns, newId);
      var sections := match insertIndex
        case Some(i) => InsertAt(st.sections, SpliceIndex(i, |st.sections|), ns)
        case None => st.sections + [ns];
      st.(sections := sections, dragOverIndex := None)
    case AddElementToSection(_, _, _, _, _, _, _) =>
      st.(sections := MapSections(st.sections, (s: Section) => AddToSection(s, a)))
    case MoveElement(_, _, _, _) =>
      st.(sections := MapSections(st.sections, (s: Section) => MoveInSection(s, a)))
    case UpdateElement(id, u) =>
      st.(sections := MapSections(st.sections, (s: Section) => UpdateInSection(s, id, u)),
          selected := UpdatedSelection(st.selected, id, u))
    case UpdateSection(id, u) =>
      st.(sections := MapSections(st.sections, (s: Section) => if s.id == id then UpdatedSection(s, u) else s),
          selected := UpdatedSelection(st.selected, id, u))
    case DeleteElement(id) =>
      st.(sections := MapSections(st.sections, (s: Section) => s.(elements := Filter(s.elements, IdIsNot(id)))),
          selected := SelectionWithout(st.selected, id))
    case DeleteSection(id) =>
      st.(sections := Filter(st.sections, SectionIdIsNot(id)), selected := None)
    case SelectElement(sel) =>
      st.(selected := sel)
    case SetDragOverIndex(index) =>
      st.(dragOverIndex := index)
    case TogglePreview =>
      st.(isPreviewMode := !st.isPreviewMode, selected := None)
    case LoadBlogData(sections, canvasStyle) =>
      st.(sections := sections, selected := None, canvasStyle := canvasStyle.GetOr(st.canvasStyle))
    case ClearCanvas =>
      InitialState().(canvasStyle := st.canvasStyle)
    case Unknown(_) =>
      st
  }
}
