/**
 * The JavaScript string built-ins the page builder relies on, written out over `seq<char>`:
 * `includes`, `split` with a non-empty string separator, `Array.prototype.join`, `trim`,
 * the decimal rendering of a non-negative integer and `encodeURIComponent`.
 */
module Strings {
  import opened Wrappers

  // ---------------------------------------------------------------------------------------------
  // Searching
  // ---------------------------------------------------------------------------------------------

  /** `pat` occurs in `s` starting at index `j`. */
  predicate OccursAt(s: string, pat: string, j: int)
  {
    0 <= j && j + |pat| <= |s| && s[j..j + |pat|] == pat
  }

  /** The first index at which `pat` occurs in `s` (JavaScript's `indexOf`, with `None` for -1). */
  function IndexOf(s: string, pat: string): (r: Option<nat>)
    ensures r.Some? ==> OccursAt(s, pat, r.value)
    ensures r.Some? ==> forall j :: 0 <= j < r.value ==> !OccursAt(s, pat, j)
    ensures r.None? ==> forall j :: !OccursAt(s, pat, j)
    decreases |s|
  {
    if |s| < |pat| then None
    else if s[..|pat|] == pat then Some(0)
    else
      match IndexOf(s[1..], pat)
      case None =>
        assert forall j :: OccursAt(s, pat, j) && j > 0 ==> OccursAt(s[1..], pat, j - 1);
        None
      case Some(i) =>
        assert forall j :: 0 < j <= i && OccursAt(s, pat, j) ==> OccursAt(s[1..], pat, j - 1);
        assert s[1..][i..i + |pat|] == s[i + 1..i + 1 + |pat|];
        Some(i + 1)
  }

  /** JavaScript's `s.includes(pat)`. */
  predicate Contains(s: string, pat: string)
  {
    IndexOf(s, pat).Some?
  }

  lemma ContainsIff(s: string, pat: string)
    ensures Contains(s, pat) <==> exists j :: OccursAt(s, pat, j)
  {
    if Contains(s, pat) {
      assert OccursAt(s, pat, IndexOf(s, pat).value);
    }
  }

  predicate StartsWith(s: string, p: string)
  {
    |p| <= |s| && s[..|p|] == p
  }

  // ---------------------------------------------------------------------------------------------
  // split and join
  // ---------------------------------------------------------------------------------------------

  /**
   * JavaScript's `s.split(sep)` for a non-empty string separator: the pieces between
   * successive non-overlapping occurrences of `sep`, scanned from the left.
   */
  function Split(s: string, sep: string): (r: seq<string>)
    requires |sep| > 0
    ensures |r| >= 1
    decreases |s|
  {
    match IndexOf(s, sep)
    case None => [s]
    case Some(i) => [s[..i]] + Split(s[i + |sep|..], sep)
  }

  /** JavaScript's `pieces.join(sep)`; an array interpolated into a template is `Join(pieces, ",")`. */
  function Join(pieces: seq<string>, sep: string): string
  {
    if |pieces| == 0 then ""
    else if |pieces| == 1 then pieces[0]
    else pieces[0] + sep + Join(pieces[1..], sep)
  }

  /** Splitting and joining back with the same separator gives the original string. */
  lemma {:induction false} SplitJoin(s: string, sep: string)
    requires |sep| > 0
    ensures Join(Split(s, sep), sep) == s
    decreases |s|
  {
    match IndexOf(s, sep)
    case None =>
    case Some(i) =>
      var rest := s[i + |sep|..];
      SplitJoin(rest, sep);
      SplitStep(s, sep, i);
      JoinCons(s[..i], Split(rest, sep), sep);
      SplitAround(s, sep, i);
  }

  /** `split` at the first occurrence: the text before it, then the split of the text after it. */
  lemma SplitStep(s: string, sep: string, i: nat)
    requires |sep| > 0 && IndexOf(s, sep) == Some(i)
    ensures i + |sep| <= |s| && Split(s, sep) == [s[..i]] + Split(s[i + |sep|..], sep)
  {
    assert OccursAt(s, sep, i);
  }

  lemma JoinCons(a: string, t: seq<string>, sep: string)
    requires |t| >= 1
    ensures Join([a] + t, sep) == a + sep + Join(t, sep)
  {
    assert ([a] + t)[1..] == t;
  }

  /** A string is the text before an occurrence of `sep`, `sep`, and the text after it. */
  lemma SplitAround(s: string, sep: string, i: nat)
    requires OccursAt(s, sep, i)
    ensures s == s[..i] + sep + s[i + |sep|..]
  {
    assert s == s[..i] + s[i..i + |sep|] + s[i + |sep|..];
  }

  /** Searching past a prefix that cannot start `sep` shifts the found index by the prefix length. */
  lemma {:induction false} IndexOfPastFreePrefix(p: string, t: string, sep: string)
    requires |sep| > 0 && sep[0] !in p
    ensures IndexOf(p + t, sep) == Shift(IndexOf(t, sep), |p|)
    decreases |p|
  {
    if p == [] {
      assert p + t == t;
    } else {
      var s := p + t;
      if |s| < |sep| {
        assert IndexOf(t, sep) == None;
      } else {
        assert s[..|sep|] != sep by { assert s[..|sep|][0] == s[0] == p[0]; }
        IndexOfStep(s, sep);
        assert s[1..] == p[1..] + t;
        IndexOfPastFreePrefix(p[1..], t, sep);
      }
    }
  }

  /** Where `sep` does not start the string, the search goes on one character further. */
  lemma IndexOfStep(s: string, sep: string)
    requires |sep| <= |s| && s[..|sep|] != sep
    ensures IndexOf(s, sep) == Shift(IndexOf(s[1..], sep), 1)
  {
  }

  /** An optional index moved `k` places to the right. */
  function Shift(r: Option<nat>, k: nat): Option<nat>
  {
    match r
    case None => None
    case Some(i) => Some(i + k)
  }

  /**
   * Joining pieces none of which contains the separator's first character and splitting again
   * gives back exactly those pieces.
   */
  lemma {:induction false} JoinSplit(pieces: seq<string>, sep: string)
    requires |sep| > 0 && |pieces| >= 1
    requires forall i :: 0 <= i < |pieces| ==> sep[0] !in pieces[i]
    ensures Split(Join(pieces, sep), sep) == pieces
    decreases |pieces|
  {
    var p := pieces[0];
    if |pieces| == 1 {
      IndexOfPastFreePrefix(p, "", sep);
      assert p + "" == p;
    } else {
      var rest := Join(pieces[1..], sep);
      assert (sep + rest)[..|sep|] == sep;
      IndexOfPastFreePrefix(p, sep + rest, sep);
      var s := p + sep + rest;
      assert s == p + (sep + rest);
      assert s[..|p|] == p;
      assert s[|p| + |sep|..] == rest;
      JoinSplit(pieces[1..], sep);
      assert pieces == [p] + pieces[1..];
    }
  }

  /** `s` with every `c` replaced by `d`. */
  function ReplaceChar(s: string, c: char, d: char): (r: string)
  {
    seq(|s|, i requires 0 <= i < |s| => if s[i] == c then d else s[i])
  }

  lemma ReplaceCharConcat(a: string, b: string, c: char, d: char)
    ensures ReplaceChar(a + b, c, d) == ReplaceChar(a, c, d) + ReplaceChar(b, c, d)
  {
    var l, r := ReplaceChar(a + b, c, d), ReplaceChar(a, c, d) + ReplaceChar(b, c, d);
    assert |l| == |r|;
    forall i | 0 <= i < |l| ensures l[i] == r[i] {
      if i < |a| { assert (a + b)[i] == a[i]; } else { assert (a + b)[i] == b[i - |a|]; }
    }
  }

  /** Splitting on one character and joining with another replaces the one by the other. */
  lemma {:induction false} SplitJoinReplaces(s: string, c: char, d: char)
    ensures Join(Split(s, [c]), [d]) == ReplaceChar(s, c, d)
    decreases |s|
  {
    match IndexOf(s, [c])
    case None =>
      CharAbsent(s, c, |s|);
      ReplaceCharFree(s, c, d);
    case Some(i) =>
      var head, rest := s[..i], s[i + 1..];
      SplitJoinReplaces(rest, c, d);
      SplitStep(s, [c], i);
      JoinCons(head, Split(rest, [c]), [d]);
      CharAbsent(s, c, i);
      ReplaceCharFree(head, c, d);
      SplitAround(s, [c], i);
      ReplaceCharConcat(head + [c], rest, c, d);
      ReplaceCharConcat(head, [c], c, d);
      assert ReplaceChar([c], c, d) == [d];
  }

  /** Before the first occurrence of `[c]` (or anywhere, when there is none) no character is `c`. */
  lemma CharAbsent(s: string, c: char, i: nat)
    requires (IndexOf(s, [c]) == Some(i)) || (IndexOf(s, [c]).None? && i == |s|)
    ensures i <= |s| && c !in s[..i]
  {
    if IndexOf(s, [c]).Some? {
      assert OccursAt(s, [c], i);
    }
    CharAbsentBefore(s, c, i);
  }

  lemma CharAbsentBefore(s: string, c: char, i: nat)
    requires i <= |s| && forall j :: 0 <= j < i ==> !OccursAt(s, [c], j)
    ensures c !in s[..i]
  {
    forall j | 0 <= j < i ensures s[..i][j] != c {
      assert s[..i][j] == s[j];
      if s[j] == c {
        OccursAtChar(s, c, j);
      }
    }
  }

  lemma OccursAtChar(s: string, c: char, j: int)
    requires 0 <= j < |s| && s[j] == c
    ensures OccursAt(s, [c], j)
  {
    assert s[j..j + 1] == [c];
  }

  lemma ReplaceCharFree(s: string, c: char, d: char)
    requires c !in s
    ensures ReplaceChar(s, c, d) == s
  {
  }

  // ---------------------------------------------------------------------------------------------
  // trim
  // ---------------------------------------------------------------------------------------------

  /** The characters `String.prototype.trim` removes: WhiteSpace and LineTerminator code points. */
  predicate IsJsSpace(c: char)
  {
    var n := c as int;
    n == 0x09 || n == 0x0A || n == 0x0B || n == 0x0C || n == 0x0D || n == 0x20 || n == 0xA0 ||
    n == 0x1680 || (0x2000 <= n <= 0x200A) || n == 0x2028 || n == 0x2029 || n == 0x202F ||
    n == 0x205F || n == 0x3000 || n == 0xFEFF
  }

  predicate AllSpace(s: string)
  {
    forall i :: 0 <= i < |s| ==> IsJsSpace(s[i])
  }

  function TrimStart(s: string): string
  {
    if s != [] && IsJsSpace(s[0]) then TrimStart(s[1..]) else s
  }

  function TrimEnd(s: string): string
  {
    if s != [] && IsJsSpace(s[|s| - 1]) then TrimEnd(s[..|s| - 1]) else s
  }

  /** JavaScript's `s.trim()`. */
  function Trim(s: string): string
  {
    TrimEnd(TrimStart(s))
  }

  /** `!s.trim()`: the string is empty or all spaces. */
  predicate IsBlank(s: string)
  {
    Trim(s) == ""
  }

  lemma {:induction false} TrimStartShape(s: string)
    ensures exists a :: AllSpace(a) && s == a + TrimStart(s)
    ensures TrimStart(s) == [] || !IsJsSpace(TrimStart(s)[0])
    decreases |s|
  {
    if s != [] && IsJsSpace(s[0]) {
      TrimStartShape(s[1..]);
      var a :| AllSpace(a) && s[1..] == a + TrimStart(s[1..]);
      assert AllSpace([s[0]] + a);
      assert s == [s[0]] + a + TrimStart(s);
    } else {
      assert AllSpace([]) && s == [] + s;
    }
  }

  lemma {:induction false} TrimEndShape(s: string)
    ensures exists b :: AllSpace(b) && s == TrimEnd(s) + b
    ensures TrimEnd(s) == [] || !IsJsSpace(TrimEnd(s)[|TrimEnd(s)| - 1])
    ensures TrimEnd(s) != [] ==> TrimEnd(s)[0] == s[0]
    decreases |s|
  {
    if s != [] && IsJsSpace(s[|s| - 1]) {
      var init := s[..|s| - 1];
      assert TrimEnd(s) == TrimEnd(init);
      TrimEndShape(init);
      var b :| AllSpace(b) && init == TrimEnd(init) + b;
      var b' := b + [s[|s| - 1]];
      assert AllSpace(b') by {
        forall i | 0 <= i < |b'| ensures IsJsSpace(b'[i]) {
          if i < |b| { assert b'[i] == b[i]; }
        }
      }
      assert s == init + [s[|s| - 1]];
      assert s == TrimEnd(s) + b';
      assert TrimEnd(s) != [] ==> TrimEnd(s)[0] == init[0] == s[0];
    } else {
      assert AllSpace([]) && s == s + [];
    }
  }

  /**
   * `trim` removes all-space text from both ends and nothing else: the result neither begins
   * nor ends with a space.
   */
  lemma TrimShape(s: string)
    ensures exists a, b :: AllSpace(a) && AllSpace(b) && s == a + Trim(s) + b
    ensures Trim(s) == [] || (!IsJsSpace(Trim(s)[0]) && !IsJsSpace(Trim(s)[|Trim(s)| - 1]))
  {
    TrimStartShape(s);
    var a :| AllSpace(a) && s == a + TrimStart(s);
    TrimEndShape(TrimStart(s));
    var b :| AllSpace(b) && TrimStart(s) == Trim(s) + b;
    assert s == a + Trim(s) + b;
  }

  /** Trimming twice trims nothing more. */
  lemma TrimIdempotent(s: string)
    ensures Trim(Trim(s)) == Trim(s)
  {
    TrimShape(s);
    var t := Trim(s);
    if t != [] {
      assert TrimStart(t) == t;
      TrimEndShape(t);
      var b :| AllSpace(b) && t == TrimEnd(t) + b;
      assert TrimEnd(t) == t;
    }
  }

  lemma {:induction false} TrimStartAllSpace(s: string)
    requires AllSpace(s)
    ensures TrimStart(s) == []
    decreases |s|
  {
    if s != [] {
      TrimStartAllSpace(s[1..]);
    }
  }

  /** A string is blank exactly when every character is a space. */
  lemma BlankIff(s: string)
    ensures IsBlank(s) <==> AllSpace(s)
  {
    if AllSpace(s) {
      TrimStartAllSpace(s);
    }
    if IsBlank(s) {
      TrimShape(s);
      var a, b :| AllSpace(a) && AllSpace(b) && s == a + Trim(s) + b;
      assert s == a + b;
      forall i | 0 <= i < |s| ensures IsJsSpace(s[i]) {
        if i < |a| { assert s[i] == a[i]; } else { assert s[i] == b[i - |a|]; }
      }
    }
  }

  // ---------------------------------------------------------------------------------------------
  // Number rendering and encodeURIComponent
  // ---------------------------------------------------------------------------------------------

  function DigitChar(d: nat): char
    requires d < 10
  {
    "0123456789"[d]
  }

  /** The decimal text of a non-negative integer, as a template literal renders it. */
  function NatToString(n: nat): (r: string)
    ensures |r| >= 1
    ensures forall i :: 0 <= i < |r| ==> '0' <= r[i] <= '9'
  {
    if n < 10 then [DigitChar(n)] else NatToString(n / 10) + [DigitChar(n % 10)]
  }

  /** The characters `encodeURIComponent` leaves as they are. */
  predicate IsUnreserved(c: char)
  {
    ('A' <= c <= 'Z') || ('a' <= c <= 'z') || ('0' <= c <= '9') ||
    c == '-' || c == '_' || c == '.' || c == '!' || c == '~' || c == '*' || c == '\'' || c == '(' || c == ')'
  }

  predicate IsUpperHex(c: char)
  {
    ('0' <= c <= '9') || ('A' <= c <= 'F')
  }

  function HexDigit(d: nat): (c: char)
    requires d < 16
    ensures IsUpperHex(c)
  {
    "0123456789ABCDEF"[d]
  }

  function HexValue(c: char): nat
  {
    if '0' <= c <= '9' then c as nat - '0' as nat
    else if 'A' <= c <= 'F' then c as nat - 'A' as nat + 10
    else 0
  }

  /** The UTF-8 encoding of one Unicode scalar value. */
  function Utf8(c: char): (bytes: seq<nat>)
    ensures 1 <= |bytes| <= 4
    ensures forall i :: 0 <= i < |bytes| ==> bytes[i] < 256
  {
    var n := c as int;
    if n < 0x80 then [n]
    else if n < 0x800 then [0xC0 + n / 64, 0x80 + n % 64]
    else if n < 0x10000 then [0xE0 + n / 4096, 0x80 + (n / 64) % 64, 0x80 + n % 64]
    else [0xF0 + n / 262144, 0x80 + (n / 4096) % 64, 0x80 + (n / 64) % 64, 0x80 + n % 64]
  }

  /** `%XX` for one byte, with upper-case hexadecimal digits. */
  function PercentByte(b: nat): (r: string)
    requires b < 256
    ensures |r| == 3 && r[0] == '%' && IsUpperHex(r[1]) && IsUpperHex(r[2])
  {
    ['%', HexDigit(b / 16), HexDigit(b % 16)]
  }

  /** A `%XX` escape names the byte it was made from. */
  lemma PercentByteDecodes(b: nat)
    requires b < 256
    ensures 16 * HexValue(PercentByte(b)[1]) + HexValue(PercentByte(b)[2]) == b
  {
    var hi, lo := b / 16, b % 16;
    assert HexValue(HexDigit(hi)) == hi;
    assert HexValue(HexDigit(lo)) == lo;
  }

  function PercentBytes(bytes: seq<nat>): string
    requires forall i :: 0 <= i < |bytes| ==> bytes[i] < 256
  {
    if bytes == [] then [] else PercentByte(bytes[0]) + PercentBytes(bytes[1..])
  }

  /** JavaScript's `encodeURIComponent` (every Dafny `char` is a scalar value, so it never throws). */
  function EncodeURIComponent(s: string): string
  {
    if s == [] then []
    else (if IsUnreserved(s[0]) then [s[0]] else PercentBytes(Utf8(s[0]))) + EncodeURIComponent(s[1..])
  }

  /** The characters a URI query component may carry without further escaping. */
  predicate IsUriSafe(c: char)
  {
    IsUnreserved(c) || c == '%'
  }

  lemma {:induction false} PercentBytesSafe(bytes: seq<nat>)
    requires forall i :: 0 <= i < |bytes| ==> bytes[i] < 256
    ensures forall i :: 0 <= i < |PercentBytes(bytes)| ==> IsUriSafe(PercentBytes(bytes)[i])
    ensures |PercentBytes(bytes)| == 3 * |bytes|
  {
    if bytes != [] {
      PercentBytesSafe(bytes[1..]);
    }
  }

  /** `encodeURIComponent` output consists of unreserved characters and `%` escapes only. */
  lemma {:induction false} EncodeURIComponentSafe(s: string)
    ensures forall i :: 0 <= i < |EncodeURIComponent(s)| ==> IsUriSafe(EncodeURIComponent(s)[i])
    ensures |EncodeURIComponent(s)| >= |s|
  {
    if s != [] {
      EncodeURIComponentSafe(s[1..]);
      if !IsUnreserved(s[0]) {
        PercentBytesSafe(Utf8(s[0]));
      }
    }
  }

  /** A string made only of unreserved characters is left unchanged. */
  lemma {:induction false} EncodeURIComponentUnreserved(s: string)
    requires forall i :: 0 <= i < |s| ==> IsUnreserved(s[i])
    ensures EncodeURIComponent(s) == s
  {
    if s != [] {
      EncodeURIComponentUnreserved(s[1..]);
      assert s == [s[0]] + s[1..];
    }
  }

  /** A character absent from both halves is absent from their concatenation. */
  lemma FreeOfCat(ch: char, a: string, b: string)
    requires ch !in a && ch !in b
    ensures ch !in a + b
  {
    assert forall i :: 0 <= i < |a + b| ==> (a + b)[i] == if i < |a| then a[i] else b[i - |a|];
  }

  /** Five pieces, as most HTML fragments are built. */
  lemma FreeOfCat5(ch: char, a: string, b: string, c: string, d: string, f: string)
    requires ch !in a && ch !in b && ch !in c && ch !in d && ch !in f
    ensures ch !in a + b + c + d + f
  {
    FreeOfCat(ch, a, b);
    FreeOfCat(ch, a + b, c);
    FreeOfCat(ch, a + b + c, d);
    FreeOfCat(ch, a + b + c + d, f);
  }

  /** In `a + b + c + d + f`, the second and fourth pieces sit at the offsets their lengths give. */
  lemma PiecesOfCat5(a: string, b: string, c: string, d: string, f: string)
    ensures var h := a + b + c + d + f;
      h[|a|..|a| + |b|] == b && h[|a| + |b| + |c|..|h| - |f|] == d
  {
    var h := a + b + c + d + f;
    assert h == a + (b + (c + (d + f)));
    assert h == (a + b + c) + d + f;
  }
}
