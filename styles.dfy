/**
 * Inline CSS styles: a style object is an ordered record of property names to values, and the
 * HTML exporters serialise it as `key: value` declarations joined by `"; "` in entry order.
 */
module Styles {
  import opened Wrappers
  import opened Strings
  import opened Records

  type Style = Record<string>

  function Declaration(entry: (string, string)): string
  {
    entry.0 + ": " + entry.1
  }

  function Declarations(s: Style): (ds: seq<string>)
    ensures |ds| == |s| && forall i :: 0 <= i < |s| ==> ds[i] == Declaration(s[i])
  {
    seq(|s|, i requires 0 <= i < |s| => Declaration(s[i]))
  }

  /** The entries in order, each written `key: value`, joined by `; `. */
  function StyleString(s: Style): string
  {
    Join(Declarations(s), "; ")
  }

  /** The reading of a style string back into entries, the inverse of `StyleString`. */
  function ParseDeclaration(d: string): (string, string)
  {
    match IndexOf(d, ": ")
    case None => (d, "")
    case Some(i) => (d[..i], d[i + 2..])
  }

  function ParseStyle(text: string): (s: Style)
  {
    if text == "" then []
    else
      var pieces := Split(text, "; ");
      seq(|pieces|, i requires 0 <= i < |pieces| => ParseDeclaration(pieces[i]))
  }

  /** Property names hold neither `:` nor `;`, values hold no `;` (true of every CSS declaration). */
  predicate Plain(s: Style)
  {
    forall i :: 0 <= i < |s| ==> ':' !in s[i].0 && ';' !in s[i].0 && ';' !in s[i].1
  }

  /** `Plain` for the entries `lo .. hi - 1` only. */
  predicate PlainBetween(s: Style, lo: int, hi: int)
  {
    forall i :: lo <= i < hi && 0 <= i < |s| ==> ':' !in s[i].0 && ';' !in s[i].0 && ';' !in s[i].1
  }

  lemma PlainJoin(s: Style, m: int, n: int)
    requires PlainBetween(s, 0, m) && PlainBetween(s, m, n) && PlainBetween(s, n, |s|)
    ensures Plain(s)
  {
  }

  lemma DeclarationParses(k: string, v: string)
    requires ':' !in k
    ensures ParseDeclaration(Declaration((k, v))) == (k, v)
  {
    var d := Declaration((k, v));
    assert d == k + (": " + v);
    IndexOfPastFreePrefix(k, ": " + v, ": ");
    assert OccursAt(": " + v, ": ", 0);
    assert IndexOf(": " + v, ": ") == Some(0);
    assert d[..|k|] == k;
    assert d[|k| + 2..] == v;
  }

  /** The serialised string determines the style: parsing it gives back every entry, in order. */
  lemma StyleRoundTrip(s: Style)
    requires Plain(s)
    ensures ParseStyle(StyleString(s)) == s
  {
    var ds := Declarations(s);
    if s != [] {
      forall i | 0 <= i < |ds| ensures ';' !in ds[i] {
        assert ds[i] == s[i].0 + ": " + s[i].1;
      }
      JoinSplit(ds, "; ");
      assert StyleString(s) != "" by {
        if |ds| == 1 {
          assert StyleString(s) == ds[0];
        } else {
          assert StyleString(s) == ds[0] + "; " + Join(ds[1..], "; ");
        }
        assert |ds[0]| >= 2;
      }
      var p := ParseStyle(StyleString(s));
      assert |p| == |s|;
      forall i | 0 <= i < |s| ensures p[i] == s[i] {
        DeclarationParses(s[i].0, s[i].1);
      }
    }
  }

  lemma {:induction false} WithoutPlain(s: Style, k: string)
    requires Plain(s)
    ensures Plain(Without(s, k))
    decreases |s|
  {
    if s != [] {
      assert Plain(s[1..]) by {
        forall i | 0 <= i < |s| - 1 ensures ':' !in s[1..][i].0 && ';' !in s[1..][i].0 && ';' !in s[1..][i].1 {
          assert s[1..][i] == s[i + 1];
        }
      }
      WithoutPlain(s[1..], k);
    }
  }

  /**
   * The element style the exporters write: `position` filtered out. The string carries no
   * `position` declaration and every other property with its value.
   */
  function ElementStyleString(s: Style): string
  {
    StyleString(Without(s, "position"))
  }

  lemma ElementStyleDropsPosition(s: Style, k: string)
    requires Plain(s)
    ensures Get(ParseStyle(ElementStyleString(s)), k) == if k == "position" then None else Get(s, k)
  {
    WithoutPlain(s, "position");
    StyleRoundTrip(Without(s, "position"));
    GetWithout(s, "position", k);
  }
}
