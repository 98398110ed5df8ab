/**
 * The canvas drop zone. Its handlers read the builder state and dispatch reducer actions:
 * hovering a section template over the canvas records where it would go (`dragOverIndex`),
 * dropping it adds a section there, and leaving the canvas forgets the position. The shared
 * drag state is a field of the builder state, so each handler is modelled by the actions it
 * dispatches and `Run` applies them in order.
 */
module CanvasDrop {
  import opened Wrappers
  import opened Document
  import opened Reducer
  import opened ReducerFacts
  import opened DragDrop

  /** The sections' measured midpoints, asked for by index (`None` where no node is found). */
  function SectionMids(n: nat, measure: nat -> Option<real>): seq<Option<real>>
  {
    seq(n, i requires 0 <= i < n => measure(i))
  }

  // ---------------------------------------------------------------------------------------
  // Hover

  /** The hover guard as written: it asks for a `type` field that the section template lacks. */
  predicate HoverGuardAsWritten(item: DragItem)
  {
    item.typeField == Some("section") && item.itemType == "section"
  }

  /** The guard the handler evidently means: the dragged item is registered as a section. */
  predicate HoverGuard(item: DragItem)
  {
    item.itemType == "section"
  }

  function HoverActionsAsWritten(st: State, item: DragItem, measure: nat -> Option<real>, y: real): seq<Action>
  {
    if HoverGuardAsWritten(item) then [SetDragOverIndex(Some(InsertionIndex(SectionMids(|st.sections|, measure), y)))]
    else []
  }

  function HoverActions(st: State, item: DragItem, measure: nat -> Option<real>, y: real): seq<Action>
  {
    if HoverGuard(item) then [SetDragOverIndex(Some(InsertionIndex(SectionMids(|st.sections|, measure), y)))]
    else []
  }

  /** The hover handler with the corrected guard: scan the sections and record the index. */
  method Hover(st: State, item: DragItem, measure: nat -> Option<real>, y: real) returns (dispatched: seq<Action>)
    ensures dispatched == HoverActions(st, item, measure, y)
  {
    if item.itemType != "section" {
      return [];
    }
    var mids := SectionMids(|st.sections|, measure);
    var insertIndex := Scan(mids, y);
    dispatched := [SetDragOverIndex(Some(insertIndex))];
  }

  // ---------------------------------------------------------------------------------------
  // Drop and leave

  /** The position a section drop inserts at: the recorded index, else the end. */
  function DropIndex(st: State): int
  {
    if st.dragOverIndex.Some? then st.dragOverIndex.value else |st.sections|
  }

  /**
   * A section drop adds a section with the item's column count (the `addSection` default `1`
   * when the item has none) at `DropIndex`; every drop then clears `dragOverIndex`.
   */
  function DropActions(st: State, item: DragItem, newId: string): seq<Action>
  {
    if item.itemType == "section" then
      [AddSection(Some(item.columns.GetOr(1)), Some(DropIndex(st)), newId), SetDragOverIndex(None)]
    else [SetDragOverIndex(None)]
  }

  /** Once the cursor is no longer over the canvas the recorded index is cleared. */
  function LeaveActions(isOver: bool): seq<Action>
  {
    if isOver then [] else [SetDragOverIndex(None)]
  }

  /** The drop indicator shown before section `i`, or after the last one when `i` is the count. */
  predicate IndicatorAt(st: State, i: nat)
  {
    i <= |st.sections| && st.dragOverIndex == Some(i)
  }

  // ---------------------------------------------------------------------------------------
  // Properties

  /**
   * Hovering a section item records the first section whose midpoint lies below the cursor,
   * or the section count, and changes nothing else; any other item changes nothing.
   */
  lemma HoverEffect(st: State, item: DragItem, measure: nat -> Option<real>, y: real)
    ensures var st' := Run(st, HoverActions(st, item, measure, y));
      HoverGuard(item) ==> st' == st.(dragOverIndex := Some(InsertionIndex(SectionMids(|st.sections|, measure), y)))
    ensures !HoverGuard(item) ==> Run(st, HoverActions(st, item, measure, y)) == st
    ensures var st' := Run(st, HoverActions(st, item, measure, y));
      HoverGuard(item) ==> st'.dragOverIndex.Some? && 0 <= st'.dragOverIndex.value <= |st.sections|
  {
    var acts := HoverActions(st, item, measure, y);
    if HoverGuard(item) {
      assert acts[1..] == [];
    }
  }

  /** The section template never passes the guard as written, so hovering it dispatches nothing. */
  lemma TemplateHoverIgnored(st: State, columns: int, measure: nat -> Option<real>, y: real)
    ensures HoverActionsAsWritten(st, SectionTemplate(columns), measure, y) == []
    ensures HoverGuard(SectionTemplate(columns))
  {
  }

  /**
   * A drop clears `dragOverIndex`. A section drop inserts exactly one new section, empty and
   * with the default style, where `splice` puts `DropIndex`, keeping the others in order; any
   * other drop changes nothing else.
   */
  lemma DropEffect(st: State, item: DragItem, newId: string)
    ensures Run(st, DropActions(st, item, newId)).dragOverIndex.None?
    ensures item.itemType != "section" ==> Run(st, DropActions(st, item, newId)) == st.(dragOverIndex := None)
    ensures var st' := Run(st, DropActions(st, item, newId));
      var p := SpliceIndex(DropIndex(st), |st.sections|);
      item.itemType == "section" ==>
        |st'.sections| == |st.sections| + 1 &&
        st'.sections[p] == Section(newId, ColumnCount(Some(item.columns.GetOr(1))), [], DefaultSectionStyle()) &&
        st'.sections[..p] + st'.sections[p + 1..] == st.sections &&
        st'.selected == st.selected && st'.canvasStyle == st.canvasStyle
  {
    var acts := DropActions(st, item, newId);
    if item.itemType == "section" {
      var a := AddSection(Some(item.columns.GetOr(1)), Some(DropIndex(st)), newId);
      RunPair(st, a, SetDragOverIndex(None));
      AddSectionEffect(st, Some(item.columns.GetOr(1)), Some(DropIndex(st)), newId);
    } else {
      assert acts[1..] == [];
    }
  }

  /**
   * With the guard as written no index is ever recorded while a template is dragged, so the
   * drop lands after the last section wherever the cursor is.
   */
  lemma TemplateDropAppendsAsWritten(st: State, columns: int, measure: nat -> Option<real>, y: real, newId: string)
    requires st.dragOverIndex.None?
    ensures var st1 := Run(st, HoverActionsAsWritten(st, SectionTemplate(columns), measure, y));
      var st2 := Run(st1, DropActions(st1, SectionTemplate(columns), newId));
      st1 == st && |st2.sections| == |st.sections| + 1 && st2.sections[..|st.sections|] == st.sections &&
      st2.sections[|st.sections|].id == newId
  {
    var st1 := Run(st, HoverActionsAsWritten(st, SectionTemplate(columns), measure, y));
    assert st1 == st;
    DropEffect(st1, SectionTemplate(columns), newId);
    var st2 := Run(st1, DropActions(st1, SectionTemplate(columns), newId));
    var n := |st.sections|;
    assert st2.sections[..n] == (st2.sections[..n] + st2.sections[n + 1..])[..n];
  }

  /**
   * With the corrected guard, hover then drop puts the new section at the scanned index: before
   * the first section whose midpoint lies below the cursor, the others keeping their order.
   */
  lemma TemplateHoverThenDrop(st: State, columns: int, measure: nat -> Option<real>, y: real, newId: string)
    ensures var i := InsertionIndex(SectionMids(|st.sections|, measure), y);
      var st1 := Run(st, HoverActions(st, SectionTemplate(columns), measure, y));
      var st2 := Run(st1, DropActions(st1, SectionTemplate(columns), newId));
      |st2.sections| == |st.sections| + 1 && st2.sections[i].id == newId &&
      st2.sections[..i] + st2.sections[i + 1..] == st.sections && st2.dragOverIndex.None?
  {
    var item := SectionTemplate(columns);
    HoverEffect(st, item, measure, y);
    var st1 := Run(st, HoverActions(st, item, measure, y));
    DropEffect(st1, item, newId);
  }

  /** After a drop, or once the cursor has left, no indicator is shown. */
  lemma NoIndicatorAfter(st: State, item: DragItem, newId: string, i: nat)
    ensures !IndicatorAt(Run(st, DropActions(st, item, newId)), i)
    ensures !IndicatorAt(Run(st, LeaveActions(false)), i)
    ensures Run(st, LeaveActions(true)) == st
  {
    DropEffect(st, item, newId);
    assert LeaveActions(false)[1..] == [];
  }

  /** After a corrected hover with a section item, exactly the indicator at the scanned index shows. */
  lemma HoverShowsIndicator(st: State, item: DragItem, measure: nat -> Option<real>, y: real, i: nat)
    requires HoverGuard(item)
    ensures IndicatorAt(Run(st, HoverActions(st, item, measure, y)), i) <==>
      i == InsertionIndex(SectionMids(|st.sections|, measure), y)
  {
    HoverEffect(st, item, measure, y);
  }
}
