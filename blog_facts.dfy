/**
 * What the blog decoder guarantees: the push-and-pop pass equals the field-by-field
 * reference, and the section it returns holds first-column, well-typed elements with strictly
 * increasing orders, led by the title heading when there is a title.
 */
module BlogFacts {
  import opened Wrappers
  import opened Strings
  import opened Document
  import opened Blog

  predicate OrdersWithin(es: seq<Element>, lo: int, hi: int)
  {
    forall i :: 0 <= i < |es| ==> lo <= es[i].order < hi
  }

  predicate StrictlyIncreasing(es: seq<Element>)
  {
    forall i, j :: 0 <= i < j < |es| ==> es[i].order < es[j].order
  }

  /** Every element sits in column 0 and carries content of the type its kind expects. */
  predicate FirstColumnWellTyped(es: seq<Element>)
  {
    forall i :: 0 <= i < |es| ==> es[i].columnIndex == 0 && WellTyped(es[i])
  }

  predicate Decoded(es: seq<Element>, lo: int, hi: int)
  {
    OrdersWithin(es, lo, hi) && StrictlyIncreasing(es) && FirstColumnWellTyped(es)
  }

  lemma DecodedConcat(a: seq<Element>, b: seq<Element>, lo: int, mid: int, hi: int)
    requires lo <= mid <= hi && Decoded(a, lo, mid) && Decoded(b, mid, hi)
    ensures Decoded(a + b, lo, hi)
  {
    var c := a + b;
    forall i | 0 <= i < |c| ensures lo <= c[i].order < hi && c[i].columnIndex == 0 && WellTyped(c[i]) {
      if i < |a| { assert c[i] == a[i]; } else { assert c[i] == b[i - |a|]; }
    }
    forall i, j | 0 <= i < j < |c| ensures c[i].order < c[j].order {
      if j < |a| {
        assert c[i] == a[i] && c[j] == a[j];
      } else if i < |a| {
        assert c[i] == a[i] && c[j] == b[j - |a|];
      } else {
        assert c[i] == b[i - |a|] && c[j] == b[j - |a|];
      }
    }
  }

  lemma StepSubtitle(es: seq<Element>, q: nat, b: PostBlock, env: Env)
    ensures PushSubtitle(Pass(es, q), b, env) == Pass(es + SubtitlePart(b, q, env), ParagraphOrder(b, q))
  {
  }

  lemma StepParagraph(es: seq<Element>, q: nat, b: PostBlock, env: Env)
    ensures PushParagraph(Pass(es, q), b, env) == Pass(es + ParagraphPart(b, q, env), q + (if b.paragraph != "" then 1 else 0))
  {
  }

  /** Pushing the plain image and popping it again for a caption leaves just the image-caption element. */
  lemma StepImage(es: seq<Element>, q: nat, b: PostBlock, env: Env)
    ensures SwapCaption(PushImage(Pass(es, q), b, env), b, env) == Pass(es + ImagePart(b, q, env), q + ImageOrders(b))
  {
    if b.image.Some? && b.image.value.caption != "" {
      assert Pop(es + [ImageElement(b.image.value, q, env)]) == es;
    }
  }

  lemma StepVideo(es: seq<Element>, q: nat, b: PostBlock, env: Env)
    ensures PushVideo(Pass(es, q), b, env) == Pass(es + VideoPart(b, q, env), q + (if b.video.Some? then 1 else 0))
  {
  }

  lemma StepCta(es: seq<Element>, q: nat, b: PostBlock, env: Env)
    ensures PushCta(Pass(es, q), b, env) == Pass(es + CtaPart(b, q, env), q + (if b.cta.Some? then 1 else 0))
  {
  }

  lemma StepTable(es: seq<Element>, q: nat, b: PostBlock, env: Env)
    ensures PushTable(Pass(es, q), b, env) == Pass(es + TablePart(b, q, env), q + (if b.table.Some? then 1 else 0))
  {
  }

  /** The push-and-pop pass for one block appends exactly the reference elements of that block. */
  lemma PushBlockFieldsExplicit(es: seq<Element>, o: nat, b: PostBlock, env: Env)
    ensures PushBlockFields(Pass(es, o), b, env) == Pass(es + BlockElements(b, o, env), o + BlockOrders(b))
  {
    var o2, o3 := ImageOrder(b, o), VideoOrder(b, o);
    var s, pa, im := SubtitlePart(b, o, env), ParagraphPart(b, ParagraphOrder(b, o), env), ImagePart(b, o2, env);
    var vi, ct, ta := VideoPart(b, o3, env), CtaPart(b, CtaOrder(b, o), env), TablePart(b, TableOrder(b, o), env);
    var p2 := PushParagraph(PushSubtitle(Pass(es, o), b, env), b, env);
    var p4 := SwapCaption(PushImage(p2, b, env), b, env);
    StepTexts(es, o, b, env);
    assert p2 == Pass(es + (s + pa), o2);
    StepImage(es + (s + pa), o2, b, env);
    assert p4 == Pass((es + (s + pa)) + im, o3);
    StepEmbeds((es + (s + pa)) + im, o3, b, env);
    assert PushBlockFields(Pass(es, o), b, env) == PushTable(PushCta(PushVideo(p4, b, env), b, env), b, env);
    Associate4(es, s + pa, im, vi + ct + ta);
    BlockElementsGrouped(b, o, env);
    assert es + BlockElements(b, o, env) == ((es + (s + pa)) + im) + (vi + ct + ta);
  }

  /** A block's elements as its text fields, its image and its embeds. */
  lemma BlockElementsGrouped(b: PostBlock, o: nat, env: Env)
    ensures BlockElements(b, o, env) ==
      (SubtitlePart(b, o, env) + ParagraphPart(b, ParagraphOrder(b, o), env)) + ImagePart(b, ImageOrder(b, o), env) +
      (VideoPart(b, VideoOrder(b, o), env) + CtaPart(b, CtaOrder(b, o), env) + TablePart(b, TableOrder(b, o), env))
  {
    var s, pa, im := SubtitlePart(b, o, env), ParagraphPart(b, ParagraphOrder(b, o), env), ImagePart(b, ImageOrder(b, o), env);
    var vi, ct, ta := VideoPart(b, VideoOrder(b, o), env), CtaPart(b, CtaOrder(b, o), env), TablePart(b, TableOrder(b, o), env);
    Associate4(s + pa + im, vi, ct, ta);
  }

  lemma StepTexts(es: seq<Element>, o: nat, b: PostBlock, env: Env)
    ensures PushParagraph(PushSubtitle(Pass(es, o), b, env), b, env) ==
      Pass(es + (SubtitlePart(b, o, env) + ParagraphPart(b, ParagraphOrder(b, o), env)), ImageOrder(b, o))
  {
    var s := SubtitlePart(b, o, env);
    StepSubtitle(es, o, b, env);
    StepParagraph(es + s, ParagraphOrder(b, o), b, env);
    Associate3(es, s, ParagraphPart(b, ParagraphOrder(b, o), env));
  }

  lemma StepEmbeds(es: seq<Element>, q: nat, b: PostBlock, env: Env)
    ensures var q1 := q + (if b.video.Some? then 1 else 0);
      var q2 := q1 + (if b.cta.Some? then 1 else 0);
      PushTable(PushCta(PushVideo(Pass(es, q), b, env), b, env), b, env) ==
      Pass(es + (VideoPart(b, q, env) + CtaPart(b, q1, env) + TablePart(b, q2, env)), q2 + (if b.table.Some? then 1 else 0))
  {
    var q1 := q + (if b.video.Some? then 1 else 0);
    var q2 := q1 + (if b.cta.Some? then 1 else 0);
    var vi, ct, ta := VideoPart(b, q, env), CtaPart(b, q1, env), TablePart(b, q2, env);
    StepVideo(es, q, b, env);
    StepCta(es + vi, q1, b, env);
    StepTable((es + vi) + ct, q2, b, env);
    Associate4(es, vi, ct, ta);
  }

  lemma Associate4<T>(a: seq<T>, b: seq<T>, c: seq<T>, d: seq<T>)
    ensures ((a + b) + c) + d == a + (b + c + d)
  {
  }

  /** The pass over a run of blocks appends the reference elements of each block in turn. */
  lemma {:induction false} DecodeBlocksExplicit(es: seq<Element>, o: nat, blocks: seq<PostBlock>, env: Env)
    ensures DecodeBlocks(Pass(es, o), blocks, env) == Pass(es + BlocksElements(blocks, o, env), o + BlocksOrders(blocks))
    decreases |blocks|
  {
    if blocks == [] {
      AppendEmpty(es);
    } else {
      DecodeBlocksExplicit(es, o, blocks[..|blocks| - 1], env);
      DecodeLastBlock(es, o, blocks, env);
    }
  }

  /** Given the pass over all blocks but the last, the pass over all of them. */
  lemma DecodeLastBlock(es: seq<Element>, o: nat, blocks: seq<PostBlock>, env: Env)
    requires blocks != []
    requires DecodeBlocks(Pass(es, o), blocks[..|blocks| - 1], env) ==
      Pass(es + BlocksElements(blocks[..|blocks| - 1], o, env), o + BlocksOrders(blocks[..|blocks| - 1]))
    ensures DecodeBlocks(Pass(es, o), blocks, env) == Pass(es + BlocksElements(blocks, o, env), o + BlocksOrders(blocks))
  {
    var front, mid := es + BlocksElements(blocks[..|blocks| - 1], o, env), o + BlocksOrders(blocks[..|blocks| - 1]);
    DecodeBlocksStep(Pass(es, o), blocks, env, front, mid);
    BlocksElementsAppend(es, o, blocks, env);
  }

  /** Once the pass over all blocks but the last is known, the last block appends its own elements. */
  lemma DecodeBlocksStep(p: Pass, blocks: seq<PostBlock>, env: Env, es: seq<Element>, o: nat)
    requires blocks != [] && DecodeBlocks(p, blocks[..|blocks| - 1], env) == Pass(es, o)
    ensures DecodeBlocks(p, blocks, env) ==
      Pass(es + BlockElements(blocks[|blocks| - 1], o, env), o + BlockOrders(blocks[|blocks| - 1]))
  {
    PushBlockFieldsExplicit(es, o, blocks[|blocks| - 1], env);
  }

  /** The elements of all blocks are those of all but the last, then the last block's. */
  lemma BlocksElementsAppend(es: seq<Element>, o: nat, blocks: seq<PostBlock>, env: Env)
    requires blocks != []
    ensures es + BlocksElements(blocks[..|blocks| - 1], o, env) +
        BlockElements(blocks[|blocks| - 1], o + BlocksOrders(blocks[..|blocks| - 1]), env) ==
      es + BlocksElements(blocks, o, env)
    ensures o + BlocksOrders(blocks[..|blocks| - 1]) + BlockOrders(blocks[|blocks| - 1]) == o + BlocksOrders(blocks)
  {
    BlocksElementsStep(blocks, o, env);
    Associate3(es, BlocksElements(blocks[..|blocks| - 1], o, env),
      BlockElements(blocks[|blocks| - 1], o + BlocksOrders(blocks[..|blocks| - 1]), env));
  }

  lemma AppendEmpty<T>(a: seq<T>)
    ensures a + [] == a
  {
  }

  lemma Associate3<T>(a: seq<T>, b: seq<T>, c: seq<T>)
    ensures (a + b) + c == a + (b + c)
  {
  }

  /**
   * One block's elements lie in `[o, o + BlockOrders(b))` with strictly increasing orders, in
   * column 0; the block contributes elements exactly when it uses up orders.
   */
  lemma BlockElementsDecoded(b: PostBlock, o: nat, env: Env)
    ensures Decoded(BlockElements(b, o, env), o, o + BlockOrders(b))
    ensures BlockElements(b, o, env) == [] <==> BlockOrders(b) == 0
  {
    var o1, o2, o3, o4, o5 := ParagraphOrder(b, o), ImageOrder(b, o), VideoOrder(b, o), CtaOrder(b, o), TableOrder(b, o);
    var hi := o + BlockOrders(b);
    var s, pa, im := SubtitlePart(b, o, env), ParagraphPart(b, o1, env), ImagePart(b, o2, env);
    var vi, ct, ta := VideoPart(b, o3, env), CtaPart(b, o4, env), TablePart(b, o5, env);
    SubtitlePartDecoded(b, o, env);
    ParagraphPartDecoded(b, o1, env);
    ImagePartDecoded(b, o2, env);
    VideoPartDecoded(b, o3, env);
    CtaPartDecoded(b, o4, env);
    TablePartDecoded(b, o5, env);
    assert o5 + (if b.table.Some? then 1 else 0) == hi;
    DecodedConcat(s, pa, o, o1, o2);
    DecodedConcat(s + pa, im, o, o2, o3);
    DecodedConcat(s + pa + im, vi, o, o3, o4);
    DecodedConcat(s + pa + im + vi, ct, o, o4, o5);
    DecodedConcat(s + pa + im + vi + ct, ta, o, o5, hi);
    assert |BlockElements(b, o, env)| == |s| + |pa| + |im| + |vi| + |ct| + |ta|;
  }

  /** A one-element part in column 0, well typed, with its order in `[lo, hi)`. */
  lemma SingleDecoded(e: Element, lo: int, hi: int)
    requires e.columnIndex == 0 && WellTyped(e) && lo <= e.order < hi
    ensures Decoded([e], lo, hi)
  {
  }

  lemma SubtitlePartDecoded(b: PostBlock, o: nat, env: Env)
    ensures Decoded(SubtitlePart(b, o, env), o, ParagraphOrder(b, o))
    ensures |SubtitlePart(b, o, env)| == ParagraphOrder(b, o) - o
  {
    if b.subtitle != "" {
      SingleDecoded(TextElement("subtitle", "text", b.subtitle, env.styles.subtitle, o, env), o, o + 1);
    }
  }

  lemma ParagraphPartDecoded(b: PostBlock, o: nat, env: Env)
    ensures Decoded(ParagraphPart(b, o, env), o, o + (if b.paragraph != "" then 1 else 0))
    ensures |ParagraphPart(b, o, env)| == if b.paragraph != "" then 1 else 0
  {
    if b.paragraph != "" {
      SingleDecoded(TextElement("paragraph", "paragraph", b.paragraph, env.styles.paragraph, o, env), o, o + 1);
    }
  }

  lemma ImagePartDecoded(b: PostBlock, o: nat, env: Env)
    ensures Decoded(ImagePart(b, o, env), o, o + ImageOrders(b))
    ensures ImagePart(b, o, env) == [] <==> ImageOrders(b) == 0
  {
    match b.image
    case None =>
    case Some(im) =>
      if im.caption == "" {
        SingleDecoded(ImageElement(im, o, env), o, o + 1);
      } else {
        SingleDecoded(CaptionElement(im, o + 1, env), o, o + 2);
      }
  }

  lemma VideoPartDecoded(b: PostBlock, o: nat, env: Env)
    ensures Decoded(VideoPart(b, o, env), o, o + (if b.video.Some? then 1 else 0))
    ensures |VideoPart(b, o, env)| == if b.video.Some? then 1 else 0
  {
    if b.video.Some? {
      SingleDecoded(TextElement("video", "video", b.video.value.url, env.styles.video, o, env), o, o + 1);
    }
  }

  lemma CtaPartDecoded(b: PostBlock, o: nat, env: Env)
    ensures Decoded(CtaPart(b, o, env), o, o + (if b.cta.Some? then 1 else 0))
    ensures |CtaPart(b, o, env)| == if b.cta.Some? then 1 else 0
  {
    if b.cta.Some? {
      SingleDecoded(ButtonElement(b.cta.value, o, env), o, o + 1);
    }
  }

  lemma TablePartDecoded(b: PostBlock, o: nat, env: Env)
    ensures Decoded(TablePart(b, o, env), o, o + (if b.table.Some? then 1 else 0))
    ensures |TablePart(b, o, env)| == if b.table.Some? then 1 else 0
  {
    if b.table.Some? {
      SingleDecoded(TableElement(b.table.value, o, env), o, o + 1);
    }
  }

  /** A captioned image leaves the first of its two orders unused. */
  lemma CaptionSkipsAnOrder(b: PostBlock, o: nat, env: Env)
    requires b.image.Some? && b.image.value.caption != ""
    ensures var gap := ImageOrder(b, o);
            (forall e :: e in BlockElements(b, o, env) ==> e.order != gap) &&
            CaptionElement(b.image.value, gap + 1, env) in BlockElements(b, o, env)
  {
    var gap := ImageOrder(b, o);
    var c := CaptionElement(b.image.value, gap + 1, env);
    BlockElementsGrouped(b, o, env);
    assert ImagePart(b, gap, env) == [c];
    TextsBelow(b, o, env);
    EmbedsAbove(b, o, env);
    GapBetween(SubtitlePart(b, o, env) + ParagraphPart(b, ParagraphOrder(b, o), env), c,
      VideoPart(b, VideoOrder(b, o), env) + CtaPart(b, CtaOrder(b, o), env) + TablePart(b, TableOrder(b, o), env),
      o, gap, o + BlockOrders(b));
  }

  /** The subtitle and paragraph of a block sit below the image's order. */
  lemma TextsBelow(b: PostBlock, o: nat, env: Env)
    ensures OrdersWithin(SubtitlePart(b, o, env) + ParagraphPart(b, ParagraphOrder(b, o), env), o, ImageOrder(b, o))
  {
    SubtitlePartDecoded(b, o, env);
    ParagraphPartDecoded(b, ParagraphOrder(b, o), env);
    DecodedConcat(SubtitlePart(b, o, env), ParagraphPart(b, ParagraphOrder(b, o), env), o, ParagraphOrder(b, o), ImageOrder(b, o));
  }

  /** The video, button and table of a block sit from the order after the image's. */
  lemma EmbedsAbove(b: PostBlock, o: nat, env: Env)
    ensures OrdersWithin(VideoPart(b, VideoOrder(b, o), env) + CtaPart(b, CtaOrder(b, o), env) + TablePart(b, TableOrder(b, o), env),
      VideoOrder(b, o), o + BlockOrders(b))
  {
    var o3, o4, o5 := VideoOrder(b, o), CtaOrder(b, o), TableOrder(b, o);
    var vi, ct, ta := VideoPart(b, o3, env), CtaPart(b, o4, env), TablePart(b, o5, env);
    VideoPartDecoded(b, o3, env);
    CtaPartDecoded(b, o4, env);
    TablePartDecoded(b, o5, env);
    DecodedConcat(vi, ct, o3, o4, o5);
    DecodedConcat(vi + ct, ta, o3, o5, o + BlockOrders(b));
  }

  /** Elements below `gap`, one at `gap + 1`, the rest from `gap + 2`: none sits at `gap`. */
  lemma GapBetween(front: seq<Element>, c: Element, back: seq<Element>, lo: int, gap: int, hi: int)
    requires OrdersWithin(front, lo, gap) && c.order == gap + 1 && OrdersWithin(back, gap + 2, hi)
    ensures (forall e :: e in front + [c] + back ==> e.order != gap) && c in front + [c] + back
  {
    var es := front + [c] + back;
    assert es[|front|] == c;
    forall e | e in es ensures e.order != gap {
      var i :| 0 <= i < |es| && es[i] == e;
      if i < |front| { assert e == front[i]; } else if i > |front| { assert e == back[i - |front| - 1]; }
    }
  }

  lemma {:induction false} BlocksElementsDecoded(blocks: seq<PostBlock>, o: nat, env: Env)
    ensures Decoded(BlocksElements(blocks, o, env), o, o + BlocksOrders(blocks))
    ensures BlocksElements(blocks, o, env) == [] <==> BlocksOrders(blocks) == 0
    decreases |blocks|
  {
    if blocks != [] {
      BlocksElementsDecoded(blocks[..|blocks| - 1], o, env);
      AppendBlockDecoded(blocks, o, env);
    }
  }

  /** Appending the last block's elements to the decoded elements of the others keeps them decoded. */
  lemma AppendBlockDecoded(blocks: seq<PostBlock>, o: nat, env: Env)
    requires blocks != []
    requires Decoded(BlocksElements(blocks[..|blocks| - 1], o, env), o, o + BlocksOrders(blocks[..|blocks| - 1]))
    requires BlocksElements(blocks[..|blocks| - 1], o, env) == [] <==> BlocksOrders(blocks[..|blocks| - 1]) == 0
    ensures Decoded(BlocksElements(blocks, o, env), o, o + BlocksOrders(blocks))
    ensures BlocksElements(blocks, o, env) == [] <==> BlocksOrders(blocks) == 0
  {
    var init, last := blocks[..|blocks| - 1], blocks[|blocks| - 1];
    var mid := o + BlocksOrders(init);
    var front, back := BlocksElements(init, o, env), BlockElements(last, mid, env);
    var hi := mid + BlockOrders(last);
    BlocksElementsSplit(blocks, o, env, front, mid, back);
    BlockElementsDecoded(last, mid, env);
    DecodedConcat(front, back, o, mid, hi);
    assert |front + back| == |front| + |back|;
    DecodedTransfer(BlocksElements(blocks, o, env), front + back, o, o + BlocksOrders(blocks), hi);
  }

  /** The elements and orders of a run of blocks, given those of all but the last. */
  lemma BlocksElementsSplit(blocks: seq<PostBlock>, o: nat, env: Env, front: seq<Element>, mid: nat, back: seq<Element>)
    requires blocks != [] && front == BlocksElements(blocks[..|blocks| - 1], o, env)
    requires mid == o + BlocksOrders(blocks[..|blocks| - 1]) && back == BlockElements(blocks[|blocks| - 1], mid, env)
    ensures BlocksElements(blocks, o, env) == front + back
    ensures o + BlocksOrders(blocks) == mid + BlockOrders(blocks[|blocks| - 1])
  {
  }

  lemma DecodedTransfer(es: seq<Element>, es': seq<Element>, lo: int, hi: int, hi': int)
    requires es == es' && hi == hi' && Decoded(es', lo, hi')
    ensures Decoded(es, lo, hi) && (es == [] <==> es' == [])
  {
  }

  /** The last block of a run adds its elements after the others', starting where they stop. */
  lemma BlocksElementsStep(blocks: seq<PostBlock>, o: nat, env: Env)
    requires blocks != []
    ensures BlocksElements(blocks, o, env) == BlocksElements(blocks[..|blocks| - 1], o, env) +
      BlockElements(blocks[|blocks| - 1], o + BlocksOrders(blocks[..|blocks| - 1]), env)
    ensures BlocksOrders(blocks) == BlocksOrders(blocks[..|blocks| - 1]) + BlockOrders(blocks[|blocks| - 1])
  {
  }

  /** The title heading when the title is non-empty, then every block's reference elements. */
  function ExpectedElements(post: Post, env: Env): seq<Element>
  {
    var start: nat := if post.title != "" then 1 else 0;
    (if post.title != "" then [TitleElement(post.title, env)] else []) + BlocksElements(post.content, start, env)
  }

  lemma DecodePostExplicit(post: Post, env: Env)
    ensures var es := ExpectedElements(post, env);
      DecodePost(post, env) == if es == [] then [] else [Section("blog-section-" + NatToString(env.now), 1, es, env.styles.section)]
  {
    var start: nat := if post.title != "" then 1 else 0;
    var head := if post.title != "" then [TitleElement(post.title, env)] else [];
    assert TitlePass(post, env) == Pass(head, start);
    DecodeBlocksExplicit(head, start, post.content, env);
  }

  lemma ExpectedElementsDecoded(post: Post, env: Env)
    ensures Decoded(ExpectedElements(post, env), 0, (if post.title != "" then 1 else 0) + BlocksOrders(post.content))
    ensures ExpectedElements(post, env) == [] <==> post.title == "" && BlocksOrders(post.content) == 0
  {
    var start: nat := if post.title != "" then 1 else 0;
    var head := if post.title != "" then [TitleElement(post.title, env)] else [];
    BlocksElementsDecoded(post.content, start, env);
    assert Decoded(head, 0, start);
    DecodedConcat(head, BlocksElements(post.content, start, env), 0, start, start + BlocksOrders(post.content));
  }

  /**
   * The decoder returns no section exactly when the post has no title and no filled-in block
   * field, and otherwise exactly one single-column section with the fixed id and style whose
   * elements are the title heading (when there is a title) followed by each block's elements,
   * all in column 0, well-typed, with strictly increasing non-negative orders.
   */
  lemma DecodePostShape(post: Post, env: Env)
    ensures var r := DecodePost(post, env);
      |r| <= 1 &&
      (r == [] <==> post.title == "" && BlocksOrders(post.content) == 0) &&
      (r != [] ==>
        r[0].id == "blog-section-" + NatToString(env.now) && r[0].columns == 1 && r[0].style == env.styles.section &&
        r[0].elements == ExpectedElements(post, env) &&
        StrictlyIncreasing(r[0].elements) && FirstColumnWellTyped(r[0].elements) &&
        OrdersWithin(r[0].elements, 0, (if post.title != "" then 1 else 0) + BlocksOrders(post.content)))
  {
    DecodePostExplicit(post, env);
    ExpectedElementsDecoded(post, env);
  }

  /** A non-empty title becomes the first element: a heading with order 0 holding the title. */
  lemma TitleLeads(post: Post, env: Env)
    requires post.title != ""
    ensures |DecodePost(post, env)| == 1
    ensures var e := DecodePost(post, env)[0].elements[0];
      e.kind == "heading" && e.content == Str(post.title) && e.order == 0 && e.columnIndex == 0
  {
    DecodePostShape(post, env);
  }
}
