/**
 * A section's column drop zones: the lookup tables that give a new element its content and
 * style, the hover handler that records where in the column a dragged element would go, and
 * the drop handler that adds the element there. The recorded position is state of the section
 * component, shared by its columns: `DropZone` holds it.
 */
module SectionDrop {
  import opened Wrappers
  import opened Records
  import opened Styles
  import opened Seqs
  import opened Document
  import opened Reducer
  import opened ReducerFacts
  import opened DragDrop
  import opened TableEdit

  /** The element types the lookup tables have a case for. */
  predicate KnownKind(kind: string)
  {
    kind == "heading" || kind == "text" || kind == "paragraph" || kind == "image" || kind == "image-caption" ||
    kind == "video" || kind == "button" || kind == "table" || kind == "spacer"
  }

  const PlaceholderImage := "https://via.placeholder.com/600x400/3498db/ffffff?text=Your+Image"

  /** `getDefaultContent`: the content a dropped element starts with; `''` for unknown types. */
  function DefaultContent(kind: string): (c: Content)
    ensures !KnownKind(kind) ==> c == Str("")
  {
    if kind == "heading" then Str("Your Heading Here")
    else if kind == "text" then Str("Add your text here. Click to edit this text and make it your own.")
    else if kind == "paragraph" then
      Str("This is a paragraph element. Double-click to edit this text. You can write longer content here " +
          "and it will wrap nicely within the container. Perfect for detailed descriptions and longer text content.")
    else if kind == "image" then Str(PlaceholderImage)
    else if kind == "image-caption" then Caption(PlaceholderImage, "Your caption text here", "Image description")
    else if kind == "video" then Str("https://www.youtube.com/watch?v=dQw4w9WgXcQ")
    else if kind == "button" then Str("Click Here")
    else if kind == "table" then Grid(DefaultTable().headers, DefaultTable().rows)
    else Str("")
  }

  function HeadingStyle(): Style
  {
    [("fontSize", "36px"), ("fontWeight", "bold"), ("color", "#2c3e50"), ("textAlign", "left"),
     ("marginBottom", "20px"), ("lineHeight", "1.2")]
  }

  function TextStyle(): Style
  {
    [("fontSize", "24px"), ("fontWeight", "bold"), ("color", "#2c3e50"), ("textAlign", "left"),
     ("marginBottom", "20px"), ("lineHeight", "1.2")]
  }

  function ParagraphStyle(): Style
  {
    [("fontSize", "16px"), ("color", "#444444"), ("lineHeight", "1.8"), ("marginBottom", "25px"),
     ("textAlign", "justify")]
  }

  function ImageStyle(): Style
  {
    [("width", "100%"), ("height", "auto"), ("borderRadius", "8px"), ("marginBottom", "20px")]
  }

  function CaptionStyle(): Style
  {
    [("width", "100%"), ("marginBottom", "25px")]
  }

  function VideoStyle(): Style
  {
    [("width", "100%"), ("marginBottom", "25px")]
  }

  function ButtonStyle(): Style
  {
    [("padding", "15px 30px"), ("backgroundColor", "#3498db"), ("color", "white"),
     ("border", "none"), ("borderRadius", "5px"), ("fontSize", "16px"), ("fontWeight", "600"),
     ("cursor", "pointer"), ("display", "inline-block"), ("textDecoration", "none"),
     ("textAlign", "center"), ("transition", "all 0.3s ease"), ("marginBottom", "20px")]
  }

  function TableStyle(): Style
  {
    [("width", "100%"), ("borderCollapse", "collapse"), ("marginBottom", "25px"),
     ("fontSize", "14px"), ("boxShadow", "0 2px 8px rgba(0,0,0,0.1)"), ("borderRadius", "8px"),
     ("overflow", "hidden")]
  }

  function SpacerStyle(): Style
  {
    [("width", "100%"), ("height", "50px"), ("backgroundColor", "transparent")]
  }

  /** `getDefaultStyle`: the style a dropped element starts with; `{}` for unknown types. */
  function DefaultStyle(kind: string): (s: Style)
    ensures !KnownKind(kind) ==> s == []
  {
    if kind == "heading" then HeadingStyle()
    else if kind == "text" then TextStyle()
    else if kind == "paragraph" then ParagraphStyle()
    else if kind == "image" then ImageStyle()
    else if kind == "image-caption" then CaptionStyle()
    else if kind == "video" then VideoStyle()
    else if kind == "button" then ButtonStyle()
    else if kind == "table" then TableStyle()
    else if kind == "spacer" then SpacerStyle()
    else []
  }

  /** The recorded drop position: a column and an index in its unsorted element list. */
  datatype Position = Position(columnIndex: int, elementIndex: nat)

  /** The section's elements in column `c`, in list order (not sorted by order). */
  function ColumnElements(s: Section, c: int): seq<Element>
  {
    Filter(s.elements, InColumn(c))
  }

  /** The elements' measured midpoints, asked for by id (`None` where no node is found). */
  function ElementMids(es: seq<Element>, measure: string -> Option<real>): seq<Option<real>>
  {
    seq(|es|, i requires 0 <= i < |es| => measure(es[i].id))
  }

  function HoverIndex(s: Section, c: int, measure: string -> Option<real>, y: real): nat
  {
    InsertionIndex(ElementMids(ColumnElements(s, c), measure), y)
  }

  /** Where an element drop inserts: the recorded index, whatever column it was recorded for, else the column's end. */
  function DropIndex(s: Section, c: int, pos: Option<Position>): nat
  {
    if pos.Some? then pos.value.elementIndex else |ColumnElements(s, c)|
  }

  /**
   * An `element` item adds one element of the item's type with the looked-up content and style
   * to this column at `DropIndex`; an `existing-element` item dispatches nothing.
   */
  function DropActions(s: Section, c: int, item: DragItem, pos: Option<Position>, newId: string): seq<Action>
  {
    if item.itemType == "element" then
      var kind := item.typeField.GetOr("");
      [AddElementToSection(s.id, kind, DefaultContent(kind), DefaultStyle(kind), Some(c), Some(DropIndex(s, c, pos)), newId)]
    else []
  }

  class DropZone {
    var dragOverPosition: Option<Position>

    constructor()
      ensures dragOverPosition.None?
    {
      dragOverPosition := None;
    }

    /**
     * Hover over column `c`: nothing unless the cursor is directly over the column and its box
     * was found; otherwise the scan's index is recorded with the column.
     */
    method Hover(s: Section, c: int, shallowOver: bool, rectFound: bool, measure: string -> Option<real>, y: real)
      modifies this
      ensures dragOverPosition == if shallowOver && rectFound then Some(Position(c, HoverIndex(s, c, measure, y)))
                                  else old(dragOverPosition)
    {
      if !shallowOver {
        return;
      }
      if !rectFound {
        return;
      }
      var mids := ElementMids(ColumnElements(s, c), measure);
      var insertIndex := Scan(mids, y);
      dragOverPosition := Some(Position(c, insertIndex));
    }

    /** Drop on column `c`: dispatch the element drop, then forget the position. */
    method Drop(s: Section, c: int, item: DragItem, newId: string) returns (dispatched: seq<Action>)
      modifies this
      ensures dispatched == DropActions(s, c, item, old(dragOverPosition), newId)
      ensures dragOverPosition.None?
    {
      dispatched := [];
      if item.itemType == "element" {
        var kind := item.typeField.GetOr("");
        var insertIndex := if dragOverPosition.Some? then dragOverPosition.value.elementIndex else |ColumnElements(s, c)|;
        dispatched := [AddElementToSection(s.id, kind, DefaultContent(kind), DefaultStyle(kind), Some(c), Some(insertIndex), newId)];
      }
      dragOverPosition := None;
    }
  }

  // ---------------------------------------------------------------------------------------
  // Properties

  /**
   * A dropped element's content fits its type: a string for the text-like and media types, the
   * default three-by-two table for a table, a caption object for a captioned image.
   */
  lemma DefaultContentFits(kind: string)
    ensures StringKind(kind) ==> DefaultContent(kind).Str?
    ensures kind == "table" ==> TableOf(DefaultContent(kind)) == DefaultTable() && Rectangular(DefaultTable())
    ensures kind == "image-caption" ==> DefaultContent(kind).Caption?
    ensures DefaultContent(kind).Grid? ==> kind == "table"
  {
    if kind == "table" {
      DefaultTableRectangular();
    } else if StringKind(kind) {
      StringKindContent(kind);
    } else {
      assert !DefaultContent(kind).Grid?;
    }
  }

  lemma DefaultTableRectangular()
    ensures Rectangular(DefaultTable())
  {
  }

  lemma StringKindContent(kind: string)
    requires StringKind(kind)
    ensures DefaultContent(kind).Str?
  {
    assert kind != "image-caption" && kind != "table" by {
      assert |kind| != 13;
      assert kind == "image" || kind == "video" || |kind| != 5;
    }
  }

  lemma HeadingStylePlain()
    ensures DistinctKeys(HeadingStyle()) && Plain(HeadingStyle())
  {
    HeadingStylePlainStart();
    HeadingStylePlainEnd();
    PlainJoin(HeadingStyle(), 3, 6);
  }

  lemma HeadingStylePlainStart()
    ensures PlainBetween(HeadingStyle(), 0, 3)
  {
  }

  lemma HeadingStylePlainEnd()
    ensures PlainBetween(HeadingStyle(), 3, 6)
  {
  }

  lemma TextStylePlain()
    ensures DistinctKeys(TextStyle()) && Plain(TextStyle())
  {
    TextStylePlainStart();
    TextStylePlainEnd();
    PlainJoin(TextStyle(), 3, 6);
  }

  lemma TextStylePlainStart()
    ensures PlainBetween(TextStyle(), 0, 3)
  {
  }

  lemma TextStylePlainEnd()
    ensures PlainBetween(TextStyle(), 3, 6)
  {
  }

  lemma ParagraphStylePlain()
    ensures DistinctKeys(ParagraphStyle()) && Plain(ParagraphStyle())
  {
    ParagraphStylePlainStart();
    ParagraphStylePlainEnd();
    PlainJoin(ParagraphStyle(), 3, 5);
  }

  lemma ParagraphStylePlainStart()
    ensures PlainBetween(ParagraphStyle(), 0, 3)
  {
  }

  lemma ParagraphStylePlainEnd()
    ensures PlainBetween(ParagraphStyle(), 3, 5)
  {
  }

  lemma ImageStylePlain()
    ensures DistinctKeys(ImageStyle()) && Plain(ImageStyle())
  {
  }

  lemma CaptionStylePlain()
    ensures DistinctKeys(CaptionStyle()) && Plain(CaptionStyle())
  {
  }

  lemma VideoStylePlain()
    ensures DistinctKeys(VideoStyle()) && Plain(VideoStyle())
  {
  }

  lemma ButtonStyleDistinct()
    ensures DistinctKeys(ButtonStyle())
  {
  }

  lemma ButtonStylePlain()
    ensures DistinctKeys(ButtonStyle()) && Plain(ButtonStyle())
  {
    ButtonStyleDistinct();
    ButtonStylePlainStart();
    ButtonStylePlainMiddle();
    ButtonStylePlainEnd();
    PlainJoin(ButtonStyle(), 5, 9);
  }

  lemma ButtonStylePlainStart()
    ensures PlainBetween(ButtonStyle(), 0, 5)
  {
  }

  lemma ButtonStylePlainMiddle()
    ensures PlainBetween(ButtonStyle(), 5, 9)
  {
  }

  lemma ButtonStylePlainEnd()
    ensures PlainBetween(ButtonStyle(), 9, 13)
  {
  }

  lemma TableStylePlain()
    ensures DistinctKeys(TableStyle()) && Plain(TableStyle())
  {
    TableStylePlainStart();
    TableStylePlainEnd();
    PlainJoin(TableStyle(), 4, 7);
  }

  lemma TableStylePlainStart()
    ensures PlainBetween(TableStyle(), 0, 4)
  {
  }

  lemma TableStylePlainEnd()
    ensures PlainBetween(TableStyle(), 4, 7)
  {
  }

  lemma SpacerStylePlain()
    ensures DistinctKeys(SpacerStyle()) && Plain(SpacerStyle())
  {
  }

  /** Every table entry has distinct, plain property names, so its style string parses back. */
  lemma DefaultStyleParses(kind: string)
    ensures DistinctKeys(DefaultStyle(kind))
    ensures ParseStyle(StyleString(DefaultStyle(kind))) == DefaultStyle(kind)
  {
    if kind == "heading" {
      HeadingStylePlain();
    } else if kind == "text" {
      TextStylePlain();
    } else if kind == "paragraph" {
      ParagraphStylePlain();
    } else if kind == "image" {
      ImageStylePlain();
    } else if kind == "image-caption" {
      CaptionStylePlain();
    } else if kind == "video" {
      VideoStylePlain();
    } else if kind == "button" {
      ButtonStylePlain();
    } else if kind == "table" {
      TableStylePlain();
    } else if kind == "spacer" {
      SpacerStylePlain();
    }
    StyleRoundTrip(DefaultStyle(kind));
  }

  /** The recorded index lies in `[0, n]` for a column of `n` elements, and is the scan's first stop. */
  lemma HoverIndexInColumn(s: Section, c: int, measure: string -> Option<real>, y: real)
    ensures var ce := ColumnElements(s, c);
      var r := HoverIndex(s, c, measure, y);
      r <= |ce| && (r < |ce| ==> Stops(measure(ce[r].id), y)) &&
      forall i :: 0 <= i < r ==> !Stops(measure(ce[i].id), y)
  {
    var ce := ColumnElements(s, c);
    var mids := ElementMids(ce, measure);
    assert |mids| == |ce| && forall i :: 0 <= i < |ce| ==> mids[i] == measure(ce[i].id);
    var r := InsertionIndex(mids, y);
    assert forall i :: 0 <= i < r ==> !Stops(mids[i], y);
  }

  /**
   * Dropping an element item on column `c` of section `i` adds exactly one element at the end
   * of that section's list: the item's type, the looked-up content and style, column `c`, and
   * as order the recorded index (even one recorded for another column) or the column's length.
   * The new element is well typed. Elements of column `c` at or after that index among the
   * column's elements move one place down; the other elements, the other sections and the
   * rest of the state keep their values.
   */
  lemma ElementDropEffect(st: State, i: nat, c: int, kind: string, pos: Option<Position>, newId: string, k: nat)
    requires i < |st.sections| && k < |st.sections|
    ensures var st' := Run(st, DropActions(st.sections[i], c, ElementEntry(kind), pos, newId));
      |st'.sections| == |st.sections| && st'.dragOverIndex == st.dragOverIndex && st'.selected == st.selected &&
      st'.isPreviewMode == st.isPreviewMode && st'.canvasStyle == st.canvasStyle
    ensures var s := st.sections[i];
      var st' := Run(st, DropActions(s, c, ElementEntry(kind), pos, newId));
      var es, es' := s.elements, st'.sections[i].elements;
      |es'| == |es| + 1 && es'[|es|].id == newId && es'[|es|].kind == kind &&
      es'[|es|].content == DefaultContent(kind) && es'[|es|].style == DefaultStyle(kind) &&
      es'[|es|].columnIndex == c && es'[|es|].order == DropIndex(s, c, pos) && WellTyped(es'[|es|])
    ensures var s := st.sections[i];
      var st' := Run(st, DropActions(s, c, ElementEntry(kind), pos, newId));
      st.sections[k].id != s.id ==> st'.sections[k] == st.sections[k]
    ensures var s := st.sections[i];
      var st' := Run(st, DropActions(s, c, ElementEntry(kind), pos, newId));
      var es, es' := s.elements, st'.sections[i].elements;
      var m, d := MatchesPayloadColumn(Some(c)), DropIndex(s, c, pos);
      st'.sections[i] == s.(elements := es') &&
      forall j :: 0 <= j < |es| ==>
        es'[j] == if d < |Filter(es, m)| && m(es[j]) && Rank(es, j, m) >= d
                  then es[j].(order := Bumped(es[j].order, Rank(es, j, m)))
                  else es[j]
  {
    var s := st.sections[i];
    var a := AddElementToSection(s.id, kind, DefaultContent(kind), DefaultStyle(kind), Some(c), Some(DropIndex(s, c, pos)), newId);
    assert DropActions(s, c, ElementEntry(kind), pos, newId) == [a];
    RunOne(st, a);
    AddElementEffect(st, a, i);
    AddElementEffect(st, a, k);
    DefaultContentFits(kind);
  }

  /** Dropping anything but a new element changes nothing. */
  lemma OtherDropQuiet(st: State, s: Section, c: int, item: DragItem, pos: Option<Position>, newId: string)
    requires item.itemType != "element"
    ensures Run(st, DropActions(s, c, item, pos, newId)) == st
  {
  }
}
