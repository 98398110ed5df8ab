/**
 * The video embed-address rewrites. Three copies exist: the video element's editor and the
 * preview renderer keep the id up to the first `&` or `?` (`split(..)[0]`); the two JSON
 * exporters interpolate the whole array `split(..)` into the template, which joins its
 * pieces with commas.
 */
module Video {
  import opened Wrappers
  import opened Strings

  const WatchMarker := "youtube.com/watch?v="
  const ShortMarker := "youtu.be/"
  const VimeoMarker := "vimeo.com/"
  const YouTubeEmbed := "https://www.youtube.com/embed/"
  const VimeoPlayer := "https://player.vimeo.com/video/"

  /**
   * `url.split(marker)[1]`: the text between the first and the second occurrence of `marker`.
   * Every caller has checked that the url contains a string that contains `marker`, so the
   * `""` branch (where JavaScript would read `undefined`) is never taken; see `AfterExists`.
   */
  function After(url: string, marker: string): string
    requires |marker| > 0
  {
    var pieces := Split(url, marker);
    if |pieces| >= 2 then pieces[1] else ""
  }

  /** `getEmbedUrl` of the video element: no guard for the empty url. */
  function EmbedUrl(url: string): string
  {
    if Contains(url, WatchMarker) then YouTubeEmbed + Split(After(url, "v="), "&")[0]
    else if Contains(url, ShortMarker) then YouTubeEmbed + Split(After(url, ShortMarker), "?")[0]
    else if Contains(url, VimeoMarker) then VimeoPlayer + After(url, VimeoMarker)
    else url
  }

  /** The preview renderer's `getEmbedUrl`: the same rewrite behind a guard for a falsy url. */
  function GuardedEmbedUrl(url: string): string
  {
    if url == "" then "" else EmbedUrl(url)
  }

  /** `getVideoEmbedUrl` of the JSON exporters: the split array interpolated, i.e. comma-joined. */
  function ArrayEmbedUrl(url: string): string
  {
    if url == "" then ""
    else if Contains(url, WatchMarker) then YouTubeEmbed + Join(Split(After(url, "v="), "&"), ",")
    else if Contains(url, ShortMarker) then YouTubeEmbed + Join(Split(After(url, ShortMarker), "?"), ",")
    else if Contains(url, VimeoMarker) then VimeoPlayer + After(url, VimeoMarker)
    else url
  }

  // ---------------------------------------------------------------------------------------------
  // Facts about split the rewrites rely on
  // ---------------------------------------------------------------------------------------------

  /** `split` yields a second piece exactly when the separator occurs. */
  lemma SplitHasSecond(s: string, sep: string)
    requires |sep| > 0
    ensures |Split(s, sep)| >= 2 <==> Contains(s, sep)
  {
  }

  /** A string containing `pat` contains every piece of `pat`. */
  lemma ContainsPiece(s: string, pat: string, k: nat, sub: string)
    requires k + |sub| <= |pat| && pat[k..k + |sub|] == sub
    requires Contains(s, pat)
    ensures Contains(s, sub)
  {
    var j := IndexOf(s, pat).value;
    assert s[j + k..j + k + |sub|] == pat[k..k + |sub|];
    assert OccursAt(s, sub, j + k);
    ContainsIff(s, sub);
  }

  /** The pieces the rewrites read are there: each url they rewrite contains the marker split on. */
  lemma AfterExists(url: string)
    ensures Contains(url, WatchMarker) ==> |Split(url, "v=")| >= 2
    ensures Contains(url, ShortMarker) ==> |Split(url, ShortMarker)| >= 2
    ensures Contains(url, VimeoMarker) ==> |Split(url, VimeoMarker)| >= 2
  {
    if Contains(url, WatchMarker) {
      assert WatchMarker[18..20] == "v=";
      ContainsPiece(url, WatchMarker, 18, "v=");
      SplitHasSecond(url, "v=");
    }
    SplitHasSecond(url, ShortMarker);
    SplitHasSecond(url, VimeoMarker);
  }

  /** `id` is `s` up to (not including) the first `c`, or all of `s` when it has no `c`. */
  predicate UpToFirst(s: string, id: string, c: char)
  {
    c !in id && (id == s || (|id| < |s| && s[..|id|] == id && s[|id|] == c))
  }

  /** `s.split(c)[0]` is the text before the first `c`. */
  lemma FirstPiece(s: string, c: char)
    ensures UpToFirst(s, Split(s, [c])[0], c)
  {
    match IndexOf(s, [c])
    case None =>
      forall j | 0 <= j < |s| ensures s[j] != c {
        if s[j] == c { assert s[j..j + 1] == [c]; assert OccursAt(s, [c], j); }
      }
    case Some(i) =>
      assert Split(s, [c])[0] == s[..i];
      assert s[i..i + 1] == [c];
      forall j | 0 <= j < i ensures s[j] != c {
        if s[j] == c { assert s[j..j + 1] == [c]; assert OccursAt(s, [c], j); }
      }
  }

  // ---------------------------------------------------------------------------------------------
  // The rewrites
  // ---------------------------------------------------------------------------------------------

  /**
   * A watch url becomes the embed prefix plus the text after the first `v=`, cut at the first
   * `&`; a short url the prefix plus the text after the first `youtu.be/`, cut at the first `?`;
   * a Vimeo url the player prefix plus the text after the first `vimeo.com/`, up to a second
   * `vimeo.com/` if there is one. Each "text after" ends where the marker occurs again, as a
   * `split` does. The tests run in that order, and a url matching none comes back unchanged.
   */
  lemma EmbedUrlCases(url: string)
    ensures Contains(url, WatchMarker) ==>
      exists id :: EmbedUrl(url) == YouTubeEmbed + id && UpToFirst(After(url, "v="), id, '&')
    ensures !Contains(url, WatchMarker) && Contains(url, ShortMarker) ==>
      exists id :: EmbedUrl(url) == YouTubeEmbed + id && UpToFirst(After(url, ShortMarker), id, '?')
    ensures !Contains(url, WatchMarker) && !Contains(url, ShortMarker) && Contains(url, VimeoMarker) ==>
      EmbedUrl(url) == VimeoPlayer + After(url, VimeoMarker)
    ensures !Contains(url, WatchMarker) && !Contains(url, ShortMarker) && !Contains(url, VimeoMarker) ==>
      EmbedUrl(url) == url
  {
    FirstPiece(After(url, "v="), '&');
    FirstPiece(After(url, ShortMarker), '?');
  }

  /** The guard for the empty url changes nothing: the empty url matches no pattern. */
  lemma GuardedEmbedUrlSame(url: string)
    ensures GuardedEmbedUrl(url) == EmbedUrl(url)
  {
    if url == "" {
      assert !Contains(url, WatchMarker) && !Contains(url, ShortMarker) && !Contains(url, VimeoMarker);
    }
  }

  /**
   * The exporters' rewrite replaces every separator after the id by a comma instead of cutting
   * the id there.
   */
  lemma ArrayEmbedUrlCases(url: string)
    ensures url == "" ==> ArrayEmbedUrl(url) == ""
    ensures url != "" && Contains(url, WatchMarker) ==>
      ArrayEmbedUrl(url) == YouTubeEmbed + ReplaceChar(After(url, "v="), '&', ',')
    ensures url != "" && !Contains(url, WatchMarker) && Contains(url, ShortMarker) ==>
      ArrayEmbedUrl(url) == YouTubeEmbed + ReplaceChar(After(url, ShortMarker), '?', ',')
    ensures url != "" && !Contains(url, WatchMarker) && !Contains(url, ShortMarker) ==>
      ArrayEmbedUrl(url) == EmbedUrl(url)
  {
    SplitJoinReplaces(After(url, "v="), '&', ',');
    SplitJoinReplaces(After(url, ShortMarker), '?', ',');
  }

  /**
   * When nothing follows the id, the comma-joining rewrite and the cutting rewrite agree: the
   * three helpers differ only on urls with a query after the id.
   */
  lemma EmbedHelpersAgree(url: string)
    requires Contains(url, WatchMarker) ==> '&' !in After(url, "v=")
    requires !Contains(url, WatchMarker) && Contains(url, ShortMarker) ==> '?' !in After(url, ShortMarker)
    ensures ArrayEmbedUrl(url) == GuardedEmbedUrl(url) == EmbedUrl(url)
  {
    GuardedEmbedUrlSame(url);
    ArrayEmbedUrlCases(url);
    EmbedUrlCases(url);
    if url != "" && Contains(url, WatchMarker) {
      FirstPiece(After(url, "v="), '&');
      ReplaceCharFree(After(url, "v="), '&', ',');
    } else if url != "" && Contains(url, ShortMarker) {
      FirstPiece(After(url, ShortMarker), '?');
      ReplaceCharFree(After(url, ShortMarker), '?', ',');
    }
  }

  /** The first index of `pat` in `s` is `k` when it occurs there and its first character does not occur earlier. */
  lemma IndexOfAt(s: string, pat: string, k: nat)
    requires |pat| > 0 && OccursAt(s, pat, k) && pat[0] !in s[..k]
    ensures IndexOf(s, pat) == Some(k)
  {
    forall j | 0 <= j < k ensures !OccursAt(s, pat, j) {
      assert s[j] != pat[0] by { assert s[..k][j] == s[j]; }
      if j + |pat| <= |s| { assert s[j..j + |pat|][0] == s[j]; }
    }
  }

  lemma NotContains(s: string, pat: string, c: char)
    requires c in pat && c !in s
    ensures !Contains(s, pat)
  {
    var k :| 0 <= k < |pat| && pat[k] == c;
    forall j | 0 <= j && j + |pat| <= |s| ensures !OccursAt(s, pat, j) {
      assert s[j..j + |pat|][k] == s[j + k];
    }
    ContainsIff(s, pat);
  }

  /**
   * A short url `p + "youtu.be/" + id + "?" + q` with one query: the exporters produce
   * `id,q` where the video element and the preview keep just `id`.
   */
  lemma ShortUrlWithQuery(p: string, id: string, q: string)
    requires 'y' !in p && 'y' !in id && 'y' !in q
    requires 'w' !in p && 'w' !in id && 'w' !in q
    requires '?' !in id && '?' !in q
    ensures var url := p + ShortMarker + id + "?" + q;
      ArrayEmbedUrl(url) == YouTubeEmbed + id + "," + q && EmbedUrl(url) == YouTubeEmbed + id
  {
    var rest := id + "?" + q;
    var url := p + ShortMarker + rest;
    assert url == p + ShortMarker + id + "?" + q;
    ShortUrlPieces(p, rest);
    QueryPieces(id, q);
    assert After(url, ShortMarker) == rest;
    assert Join(Split(rest, "?"), ",") == id + "," + q;
    assert ArrayEmbedUrl(url) == YouTubeEmbed + (id + "," + q);
    assert EmbedUrl(url) == YouTubeEmbed + id;
    AssociateStrings(YouTubeEmbed, id, ",", q);
  }

  /** The short url splits at its one `youtu.be/` and holds no watch marker. */
  lemma ShortUrlPieces(p: string, rest: string)
    requires 'y' !in p && 'y' !in rest && 'w' !in p && 'w' !in rest && rest != ""
    ensures var url := p + ShortMarker + rest;
      !Contains(url, WatchMarker) && url != "" && Split(url, ShortMarker) == [p, rest]
  {
    var url := p + ShortMarker + rest;
    assert 'w' !in url by { assert 'w' !in ShortMarker; }
    NotContains(url, WatchMarker, 'w');
    assert url[|p|..|p| + |ShortMarker|] == ShortMarker;
    assert url[..|p|] == p;
    IndexOfAt(url, ShortMarker, |p|);
    SplitStep(url, ShortMarker, |p|);
    assert url[|p| + |ShortMarker|..] == rest;
    NotContains(rest, ShortMarker, 'y');
  }

  /** `id + "?" + q` splits at its one `?`. */
  lemma QueryPieces(id: string, q: string)
    requires '?' !in id && '?' !in q
    ensures Split(id + "?" + q, "?") == [id, q]
  {
    var rest := id + "?" + q;
    assert rest[|id|..|id| + 1] == "?";
    assert rest[..|id|] == id;
    IndexOfAt(rest, "?", |id|);
    SplitStep(rest, "?", |id|);
    assert rest[|id| + 1..] == q;
    NotContains(q, "?", '?');
  }

  lemma AssociateStrings(a: string, b: string, c: string, d: string)
    ensures a + (b + c + d) == a + b + c + d
  {
  }

  lemma ExampleUrlPieces()
    ensures "https://" + ShortMarker + "abc123" + "?" + "t=5" == "https://youtu.be/abc123?t=5"
  {
    assert "https://" + ShortMarker == "https://youtu.be/";
    assert "https://youtu.be/" + "abc123" == "https://youtu.be/abc123";
    assert "https://youtu.be/abc123" + "?" == "https://youtu.be/abc123?";
  }

  lemma ExampleEmbedPieces()
    ensures YouTubeEmbed + "abc123" + "," + "t=5" == "https://www.youtube.com/embed/abc123,t=5"
    ensures YouTubeEmbed + "abc123" == "https://www.youtube.com/embed/abc123"
  {
    assert "https://www.youtube.com/embed/abc123" + "," == "https://www.youtube.com/embed/abc123,";
  }

  /** The instance with `https://youtu.be/abc123?t=5`. */
  lemma ShortUrlExample()
    ensures ArrayEmbedUrl("https://youtu.be/abc123?t=5") == "https://www.youtube.com/embed/abc123,t=5"
    ensures EmbedUrl("https://youtu.be/abc123?t=5") == "https://www.youtube.com/embed/abc123"
  {
    ShortUrlWithQuery("https://", "abc123", "t=5");
    ExampleUrlPieces();
    ExampleEmbedPieces();
  }
}
