/**
 * What the two drop zones share: the dragged item as the drag-and-drop monitor reports it, the
 * actions a handler dispatches applied in order, and the insertion-index scan both run while
 * something is dragged over them: walk the items top to bottom and stop at the first one whose
 * measured vertical midpoint lies below the cursor. An item with no node on the page has no
 * midpoint and is passed over.
 */
module DragDrop {
  import opened Wrappers
  import opened Document
  import opened Reducer

  /**
   * What a drag-and-drop monitor reports: the registered item type (`getItemType()`), the
   * item's own `type` field and its `columns` field, absent where the payload has none.
   */
  datatype DragItem = DragItem(itemType: string, typeField: Option<string>, columns: Option<int>)

  /** The library's section template: registered as `section`, payload `{ columns }`. */
  function SectionTemplate(columns: int): DragItem
  {
    DragItem("section", None, Some(columns))
  }

  /** The library's element entry: registered as `element`, payload `{ type }`. */
  function ElementEntry(kind: string): DragItem
  {
    DragItem("element", Some(kind), None)
  }

  /** The dispatched actions, applied in order. */
  function Run(st: State, actions: seq<Action>): State
    decreases |actions|
  {
    if actions == [] then st else Run(Apply(st, actions[0]), actions[1..])
  }

  lemma RunPair(st: State, a: Action, b: Action)
    ensures Run(st, [a, b]) == Apply(Apply(st, a), b)
  {
    assert [a, b][1..] == [b];
    assert Run(st, [a, b]) == Run(Apply(st, a), [b]);
    assert [b][1..] == [];
    assert Run(Apply(st, a), [b]) == Run(Apply(Apply(st, a), b), []);
  }

  lemma RunOne(st: State, a: Action)
    ensures Run(st, [a]) == Apply(st, a)
  {
    assert [a][1..] == [];
    assert Run(st, [a]) == Run(Apply(st, a), []);
  }

  /** Item `i`'s measured midpoint stops the scan for a cursor at height `y`. */
  predicate Stops(mid: Option<real>, y: real)
  {
    mid.Some? && y < mid.value
  }

  /** The insertion index: the first item that stops the scan, or the item count. */
  function InsertionIndex(mids: seq<Option<real>>, y: real): (r: nat)
    ensures r <= |mids|
    ensures r < |mids| ==> Stops(mids[r], y)
    ensures forall i :: 0 <= i < r ==> !Stops(mids[i], y)
    decreases |mids|
  {
    if mids == [] then 0
    else if Stops(mids[0], y) then 0
    else 1 + InsertionIndex(mids[1..], y)
  }

  /** The loop with `break`, as both drop zones write it. */
  method Scan(mids: seq<Option<real>>, y: real) returns (insertIndex: nat)
    ensures insertIndex == InsertionIndex(mids, y)
  {
    insertIndex := |mids|;
    var i := 0;
    while i < |mids|
      invariant 0 <= i <= |mids|
      invariant forall k :: 0 <= k < i ==> !Stops(mids[k], y)
    {
      if mids[i].Some? {
        if y < mids[i].value {
          insertIndex := i;
          break;
        }
      }
      i := i + 1;
    }
    IndexUnique(mids, y, insertIndex);
  }

  /** The two conditions of the contract fix the index: nothing else meets them. */
  lemma IndexUnique(mids: seq<Option<real>>, y: real, r: nat)
    requires r <= |mids| && (r < |mids| ==> Stops(mids[r], y))
    requires forall i :: 0 <= i < r ==> !Stops(mids[i], y)
    ensures r == InsertionIndex(mids, y)
  {
  }

  /** An item with no node never stops the scan: it may be taken out without moving the others. */
  lemma {:induction false} UnmeasuredSkipped(mids: seq<Option<real>>, y: real, k: nat)
    requires k < |mids| && mids[k].None?
    ensures var r := InsertionIndex(mids[..k] + mids[k + 1..], y);
      InsertionIndex(mids, y) == if r < k then r else r + 1
  {
    var rest := mids[..k] + mids[k + 1..];
    var r := InsertionIndex(rest, y);
    var want := if r < k then r else r + 1;
    assert forall i :: 0 <= i < k ==> rest[i] == mids[i];
    assert forall i :: k <= i < |rest| ==> rest[i] == mids[i + 1];
    forall i | 0 <= i < want ensures !Stops(mids[i], y) {
      if i > k {
        assert mids[i] == rest[i - 1];
      }
    }
    if want < |mids| {
      if want > k {
        assert mids[want] == rest[want - 1];
      }
    }
    IndexUnique(mids, y, want);
  }

  /** A cursor further down never yields an earlier index. */
  lemma IndexMonotone(mids: seq<Option<real>>, y1: real, y2: real)
    requires y1 <= y2
    ensures InsertionIndex(mids, y1) <= InsertionIndex(mids, y2)
  {
  }

  /** Every item measured, midpoints ascending: all items at or above the cursor come first. */
  predicate AllMeasuredAscending(mids: seq<Option<real>>)
  {
    (forall i :: 0 <= i < |mids| ==> mids[i].Some?) &&
    forall i, j :: 0 <= i < j < |mids| && mids[i].Some? && mids[j].Some? ==> mids[i].value <= mids[j].value
  }

  /** With ascending midpoints the index splits the items into those at or above the cursor and those below. */
  lemma IndexPartitions(mids: seq<Option<real>>, y: real)
    requires AllMeasuredAscending(mids)
    ensures forall i :: 0 <= i < InsertionIndex(mids, y) ==> mids[i].value <= y
    ensures forall i :: InsertionIndex(mids, y) <= i < |mids| ==> y < mids[i].value
  {
    var r := InsertionIndex(mids, y);
    forall i | r <= i < |mids| ensures y < mids[i].value {
      assert mids[r].value <= mids[i].value;
    }
  }
}
