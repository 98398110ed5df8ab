/**
 * The traversal every exporter shares: sections in order, in each section the columns
 * `0 .. columns - 1`, in each column the elements filtered by column and sorted by order.
 */
module Columns {
  import opened Document

  /** How many columns a walk from column 0 up to the section's column count visits. */
  function ColumnsShown(s: Section): nat
  {
    if s.columns > 0 then s.columns else 0
  }

  /** The displayed columns `0 .. n - 1` of one section. */
  function SectionColumns(s: Section, n: nat): (r: seq<seq<Element>>)
    ensures |r| == n
    ensures forall c :: 0 <= c < n ==> r[c] == ColumnView(s, c)
  {
    if n == 0 then [] else SectionColumns(s, n - 1) + [ColumnView(s, n - 1)]
  }

  /** Every displayed column of the page, in visiting order. */
  function PageColumns(sections: seq<Section>): seq<seq<Element>>
    decreases |sections|
  {
    if sections == [] then []
    else
      var last := sections[|sections| - 1];
      PageColumns(sections[..|sections| - 1]) + SectionColumns(last, ColumnsShown(last))
  }

  predicate ElementsWellTyped(es: seq<Element>)
  {
    forall e :: e in es ==> WellTyped(e)
  }

  predicate PageWellTyped(cols: seq<seq<Element>>)
  {
    forall col :: col in cols ==> ElementsWellTyped(col)
  }

  /** Each displayed column of a section holds only elements of that section. */
  lemma ColumnOfSection(s: Section, c: int, e: Element)
    requires e in ColumnView(s, c)
    ensures e in s.elements
  {
    ColumnViewCorrect(s, c);
  }

  /** Section `i` of a well-typed page holds only well-typed elements. */
  lemma SectionWellTyped(sections: seq<Section>, i: nat)
    requires WellTypedSections(sections) && i < |sections|
    ensures ElementsWellTyped(sections[i].elements)
  {
    forall e | e in sections[i].elements ensures WellTyped(e) {
      var j :| 0 <= j < |sections[i].elements| && sections[i].elements[j] == e;
    }
  }

  /** The displayed columns of a well-typed section are well-typed. */
  lemma {:induction false} SectionColumnsWellTyped(s: Section, n: nat)
    requires ElementsWellTyped(s.elements)
    ensures PageWellTyped(SectionColumns(s, n))
  {
    forall col | col in SectionColumns(s, n) ensures ElementsWellTyped(col) {
      var c :| 0 <= c < n && SectionColumns(s, n)[c] == col;
      forall e | e in col ensures WellTyped(e) {
        ColumnOfSection(s, c, e);
      }
    }
  }

  /** A well-typed page shows only well-typed columns. */
  lemma {:induction false} PageColumnsWellTyped(sections: seq<Section>)
    requires WellTypedSections(sections)
    ensures PageWellTyped(PageColumns(sections))
    decreases |sections|
  {
    if sections != [] {
      var n := |sections| - 1;
      assert WellTypedSections(sections[..n]) by {
        forall i, j | 0 <= i < n && 0 <= j < |sections[..n][i].elements|
          ensures WellTyped(sections[..n][i].elements[j])
        {
          assert sections[..n][i] == sections[i];
        }
      }
      PageColumnsWellTyped(sections[..n]);
      SectionWellTyped(sections, n);
      SectionColumnsWellTyped(sections[n], ColumnsShown(sections[n]));
    }
  }

  /** Visiting a run of sections after another visits their columns after the other's. */
  lemma {:induction false} PageColumnsConcat(a: seq<Section>, b: seq<Section>)
    ensures PageColumns(a + b) == PageColumns(a) + PageColumns(b)
    decreases |b|
  {
    if b == [] {
      assert a + b == a;
    } else {
      var n := |b| - 1;
      assert (a + b)[..|a + b| - 1] == a + b[..n];
      assert (a + b)[|a + b| - 1] == b[n];
      PageColumnsConcat(a, b[..n]);
      var last := b[n];
      var sc := SectionColumns(last, ColumnsShown(last));
      assert PageColumns(a) + PageColumns(b[..n]) + sc == PageColumns(a) + (PageColumns(b[..n]) + sc);
    }
  }

  /** The columns visited once section `i` is done. */
  lemma PageColumnsStep(sections: seq<Section>, i: nat)
    requires i < |sections|
    ensures PageColumns(sections[..i + 1]) ==
            PageColumns(sections[..i]) + SectionColumns(sections[i], ColumnsShown(sections[i]))
  {
    assert sections[..i + 1][..i] == sections[..i];
  }
}
