/**
 * The blog decoder: a stored post `{title, content: [block]}` becomes at most one
 * single-column section whose elements carry strictly increasing orders, one element per
 * field the post fills in.
 */
module Blog {
  import opened Wrappers
  import opened Strings
  import opened Records
  import opened Styles
  import opened Document

  /** Post fields; a missing string field is `""`, a missing object field `None`. */
  datatype PostImage = PostImage(url: string, alt: string, caption: string)
  datatype PostVideo = PostVideo(url: string, embedUrl: string)
  datatype PostCta = PostCta(text: string, link: string, target: string)
  datatype PostBlock = PostBlock(
    subtitle: string,
    paragraph: string,
    image: Option<PostImage>,
    video: Option<PostVideo>,
    cta: Option<PostCta>,
    table: Option<Content>)
  datatype Post = Post(title: string, content: seq<PostBlock>)

  /** The fixed styles the decoder gives the section and each kind of element it creates. */
  datatype BlogStyles = BlogStyles(
    section: Style, title: Style, subtitle: Style, paragraph: Style, image: Style,
    caption: Style, video: Style, button: Style, table: Style)

  /**
   * What every element the decoder creates shares: the clock reading `Date.now()` that goes into
   * the ids and the styles. The source reads the clock afresh for the section and for each
   * element; the model takes all those readings to be the same `now`.
   */
  datatype Env = Env(now: nat, styles: BlogStyles)

  function BlogSectionStyle(): Style
  {
    [("padding", "40px 20px"), ("backgroundColor", "#ffffff"), ("borderBottom", "1px solid #f0f0f0"),
     ("minHeight", "100px"), ("display", "flex"), ("alignItems", "stretch"), ("gap", "20px")]
  }

  function TitleStyle(): Style
  {
    [("fontSize", "36px"), ("fontWeight", "bold"), ("color", "#2c3e50"), ("textAlign", "center"),
     ("marginBottom", "30px"), ("lineHeight", "1.2")]
  }

  function SubtitleStyle(): Style
  {
    [("fontSize", "24px"), ("fontWeight", "600"), ("color", "#2c3e50"), ("marginBottom", "15px"),
     ("lineHeight", "1.3")]
  }

  function ParagraphStyle(): Style
  {
    [("fontSize", "16px"), ("color", "#444444"), ("lineHeight", "1.8"), ("marginBottom", "25px"),
     ("textAlign", "justify")]
  }

  function ImageStyle(): Style
  {
    [("width", "100%"), ("height", "auto"), ("borderRadius", "8px"), ("marginBottom", "20px")]
  }

  function CaptionStyle(): Style
  {
    [("width", "100%"), ("marginBottom", "25px")]
  }

  function VideoStyle(): Style
  {
    [("width", "100%"), ("marginBottom", "25px")]
  }

  function ButtonStyle(): Style
  {
    [("padding", "15px 30px"), ("backgroundColor", "#3498db"), ("color", "white"), ("border", "none"),
     ("borderRadius", "5px"), ("fontSize", "16px"), ("fontWeight", "600"), ("cursor", "pointer"),
     ("display", "inline-block"), ("marginBottom", "20px")]
  }

  function TableStyle(): Style
  {
    [("width", "100%"), ("borderCollapse", "collapse"), ("marginBottom", "25px"), ("fontSize", "14px"),
     ("boxShadow", "0 2px 8px rgba(0,0,0,0.1)"), ("borderRadius", "8px")]
  }

  function SourceStyles(): BlogStyles
  {
    BlogStyles(BlogSectionStyle(), TitleStyle(), SubtitleStyle(), ParagraphStyle(), ImageStyle(),
               CaptionStyle(), VideoStyle(), ButtonStyle(), TableStyle())
  }

  /** `${prefix}-${Date.now()}-${order}` */
  function ElementId(prefix: string, now: nat, order: nat): string
  {
    prefix + "-" + NatToString(now) + "-" + NatToString(order)
  }

  function TextElement(prefix: string, kind: string, text: string, style: Style, order: nat, env: Env): Element
  {
    Element(ElementId(prefix, env.now, order), kind, Str(text), style, 0, order, "", false, "")
  }

  function TitleElement(title: string, env: Env): Element
  {
    TextElement("title", "heading", title, env.styles.title, 0, env)
  }

  function ImageElement(im: PostImage, order: nat, env: Env): Element
  {
    Element(ElementId("image", env.now, order), "image", Str(im.url), env.styles.image, 0, order, "", false, im.alt)
  }

  function CaptionElement(im: PostImage, order: nat, env: Env): Element
  {
    Element(ElementId("image-caption", env.now, order), "image-caption", Caption(im.url, im.caption, im.alt),
            env.styles.caption, 0, order, "", false, "")
  }

  function ButtonElement(cta: PostCta, order: nat, env: Env): Element
  {
    Element(ElementId("button", env.now, order), "button", Str(cta.text), env.styles.button, 0, order,
            cta.link, cta.target == "_blank", "")
  }

  function TableElement(table: Content, order: nat, env: Env): Element
  {
    Element(ElementId("table", env.now, order), "table", table, env.styles.table, 0, order, "", false, "")
  }

  /** How many order values a block's fields use up; a captioned image uses two. */
  function ImageOrders(b: PostBlock): nat
  {
    match b.image
    case None => 0
    case Some(im) => if im.caption == "" then 1 else 2
  }

  function BlockOrders(b: PostBlock): nat
  {
    (if b.subtitle != "" then 1 else 0) + (if b.paragraph != "" then 1 else 0) + ImageOrders(b) +
    (if b.video.Some? then 1 else 0) + (if b.cta.Some? then 1 else 0) + (if b.table.Some? then 1 else 0)
  }

  // The elements one block contributes, written out field by field: the reference the
  // push-and-pop pass below is proved against.

  function SubtitlePart(b: PostBlock, o: nat, env: Env): seq<Element>
  {
    if b.subtitle != "" then [TextElement("subtitle", "text", b.subtitle, env.styles.subtitle, o, env)] else []
  }

  function ParagraphPart(b: PostBlock, o: nat, env: Env): seq<Element>
  {
    if b.paragraph != "" then [TextElement("paragraph", "paragraph", b.paragraph, env.styles.paragraph, o, env)] else []
  }

  /** A captioned image becomes one image-caption element carrying the second of its two orders. */
  function ImagePart(b: PostBlock, o: nat, env: Env): seq<Element>
  {
    match b.image
    case None => []
    case Some(im) => if im.caption == "" then [ImageElement(im, o, env)] else [CaptionElement(im, o + 1, env)]
  }

  function VideoPart(b: PostBlock, o: nat, env: Env): seq<Element>
  {
    if b.video.Some? then [TextElement("video", "video", b.video.value.url, env.styles.video, o, env)] else []
  }

  function CtaPart(b: PostBlock, o: nat, env: Env): seq<Element>
  {
    if b.cta.Some? then [ButtonElement(b.cta.value, o, env)] else []
  }

  function TablePart(b: PostBlock, o: nat, env: Env): seq<Element>
  {
    if b.table.Some? then [TableElement(b.table.value, o, env)] else []
  }

  // The order each field of a block receives when the block starts at order `o`.
  function ParagraphOrder(b: PostBlock, o: nat): nat { o + (if b.subtitle != "" then 1 else 0) }
  function ImageOrder(b: PostBlock, o: nat): nat { ParagraphOrder(b, o) + (if b.paragraph != "" then 1 else 0) }
  function VideoOrder(b: PostBlock, o: nat): nat { ImageOrder(b, o) + ImageOrders(b) }
  function CtaOrder(b: PostBlock, o: nat): nat { VideoOrder(b, o) + (if b.video.Some? then 1 else 0) }
  function TableOrder(b: PostBlock, o: nat): nat { CtaOrder(b, o) + (if b.cta.Some? then 1 else 0) }

  /** Subtitle, paragraph, image, video, button, table: the elements of one block starting at order `o`. */
  function BlockElements(b: PostBlock, o: nat, env: Env): seq<Element>
  {
    SubtitlePart(b, o, env) + ParagraphPart(b, ParagraphOrder(b, o), env) + ImagePart(b, ImageOrder(b, o), env) +
    VideoPart(b, VideoOrder(b, o), env) + CtaPart(b, CtaOrder(b, o), env) + TablePart(b, TableOrder(b, o), env)
  }

  function BlocksOrders(blocks: seq<PostBlock>): nat
    decreases |blocks|
  {
    if blocks == [] then 0 else BlocksOrders(blocks[..|blocks| - 1]) + BlockOrders(blocks[|blocks| - 1])
  }

  /** The elements of a run of blocks, the first starting at order `o`. */
  function BlocksElements(blocks: seq<PostBlock>, o: nat, env: Env): seq<Element>
    decreases |blocks|
  {
    if blocks == [] then []
    else BlocksElements(blocks[..|blocks| - 1], o, env) + BlockElements(blocks[|blocks| - 1], o + BlocksOrders(blocks[..|blocks| - 1]), env)
  }

  /** The decoder's running state: the elements pushed so far and the order counter. */
  datatype Pass = Pass(elements: seq<Element>, order: nat)

  /** `section.elements.push(e)` followed by `elementOrder++`. */
  function Push(p: Pass, e: Element): Pass
  {
    Pass(p.elements + [e], p.order + 1)
  }

  /** `Array.prototype.pop`: drops the last element, leaves an empty array empty. */
  function Pop(s: seq<Element>): seq<Element>
  {
    if s == [] then [] else s[..|s| - 1]
  }

  function PushSubtitle(p: Pass, b: PostBlock, env: Env): Pass
  {
    if b.subtitle != "" then Push(p, TextElement("subtitle", "text", b.subtitle, env.styles.subtitle, p.order, env)) else p
  }

  function PushParagraph(p: Pass, b: PostBlock, env: Env): Pass
  {
    if b.paragraph != "" then Push(p, TextElement("paragraph", "paragraph", b.paragraph, env.styles.paragraph, p.order, env)) else p
  }

  function PushImage(p: Pass, b: PostBlock, env: Env): Pass
  {
    if b.image.Some? then Push(p, ImageElement(b.image.value, p.order, env)) else p
  }

  /** A captioned image: the plain image just pushed is popped and an image-caption pushed instead. */
  function SwapCaption(p: Pass, b: PostBlock, env: Env): Pass
  {
    if b.image.Some? && b.image.value.caption != "" then
      Push(p.(elements := Pop(p.elements)), CaptionElement(b.image.value, p.order, env))
    else p
  }

  function PushVideo(p: Pass, b: PostBlock, env: Env): Pass
  {
    if b.video.Some? then Push(p, TextElement("video", "video", b.video.value.url, env.styles.video, p.order, env)) else p
  }

  function PushCta(p: Pass, b: PostBlock, env: Env): Pass
  {
    if b.cta.Some? then Push(p, ButtonElement(b.cta.value, p.order, env)) else p
  }

  function PushTable(p: Pass, b: PostBlock, env: Env): Pass
  {
    if b.table.Some? then Push(p, TableElement(b.table.value, p.order, env)) else p
  }

  /** Everything one content block contributes, in the order the decoder pushes it. */
  function PushBlockFields(p: Pass, b: PostBlock, env: Env): Pass
  {
    PushTable(PushCta(PushVideo(SwapCaption(PushImage(PushParagraph(PushSubtitle(p, b, env), b, env), b, env), b, env), b, env), b, env), b, env)
  }

  function DecodeBlocks(p: Pass, blocks: seq<PostBlock>, env: Env): Pass
    decreases |blocks|
  {
    if blocks == [] then p
    else PushBlockFields(DecodeBlocks(p, blocks[..|blocks| - 1], env), blocks[|blocks| - 1], env)
  }

  /** The state after the title: the leading heading when the title is non-empty. */
  function TitlePass(post: Post, env: Env): Pass
  {
    if post.title != "" then Push(Pass([], 0), TitleElement(post.title, env)) else Pass([], 0)
  }

  /** The decoder's result: the one section, or nothing when it would be empty. */
  function DecodePost(post: Post, env: Env): seq<Section>
  {
    var elems := DecodeBlocks(TitlePass(post, env), post.content, env).elements;
    if elems == [] then []
    else [Section("blog-section-" + NatToString(env.now), 1, elems, env.styles.section)]
  }

  /** `convertBlogToSections` with the clock reading `now` and the fixed element styles. */
  function BlogSections(post: Post, now: nat): seq<Section>
  {
    DecodePost(post, Env(now, SourceStyles()))
  }

  /** The body of the pass for one content block: its text fields, its image, then its embeds. */
  method PushBlock(elements0: seq<Element>, order0: nat, b: PostBlock, env: Env)
    returns (elements: seq<Element>, order: nat)
    ensures Pass(elements, order) == PushBlockFields(Pass(elements0, order0), b, env)
  {
    elements, order := PushTextFields(elements0, order0, b, env);
    elements, order := PushImageFields(elements, order, b, env);
    elements, order := PushEmbedFields(elements, order, b, env);
  }

  /** The subtitle, then the paragraph, each pushed only when non-empty. */
  method PushTextFields(elements0: seq<Element>, order0: nat, b: PostBlock, env: Env)
    returns (elements: seq<Element>, order: nat)
    ensures Pass(elements, order) == PushParagraph(PushSubtitle(Pass(elements0, order0), b, env), b, env)
  {
    elements, order := elements0, order0;
    if b.subtitle != "" {
      elements := elements + [TextElement("subtitle", "text", b.subtitle, env.styles.subtitle, order, env)];
      order := order + 1;
    }
    ghost var p1 := Pass(elements, order);
    assert p1 == PushSubtitle(Pass(elements0, order0), b, env);
    if b.paragraph != "" {
      elements := elements + [TextElement("paragraph", "paragraph", b.paragraph, env.styles.paragraph, order, env)];
      order := order + 1;
    }
  }

  /** The plain image, popped again and replaced by an image-caption when it has a caption. */
  method PushImageFields(elements0: seq<Element>, order0: nat, b: PostBlock, env: Env)
    returns (elements: seq<Element>, order: nat)
    ensures Pass(elements, order) == SwapCaption(PushImage(Pass(elements0, order0), b, env), b, env)
  {
    elements, order := elements0, order0;
    if b.image.Some? {
      elements := elements + [ImageElement(b.image.value, order, env)];
      order := order + 1;
    }
    ghost var p1 := Pass(elements, order);
    assert p1 == PushImage(Pass(elements0, order0), b, env);
    if b.image.Some? && b.image.value.caption != "" {
      if |elements| > 0 {
        elements := elements[..|elements| - 1];
      }
      elements := elements + [CaptionElement(b.image.value, order, env)];
      order := order + 1;
    }
  }

  /** The video, the call-to-action button and the table, each pushed when present. */
  method PushEmbedFields(elements0: seq<Element>, order0: nat, b: PostBlock, env: Env)
    returns (elements: seq<Element>, order: nat)
    ensures Pass(elements, order) == PushTable(PushCta(PushVideo(Pass(elements0, order0), b, env), b, env), b, env)
  {
    elements, order := elements0, order0;
    if b.video.Some? {
      elements := elements + [TextElement("video", "video", b.video.value.url, env.styles.video, order, env)];
      order := order + 1;
    }
    ghost var p1 := Pass(elements, order);
    assert p1 == PushVideo(Pass(elements0, order0), b, env);
    if b.cta.Some? {
      elements := elements + [ButtonElement(b.cta.value, order, env)];
      order := order + 1;
    }
    ghost var p2 := Pass(elements, order);
    assert p2 == PushCta(p1, b, env);
    if b.table.Some? {
      elements := elements + [TableElement(b.table.value, order, env)];
      order := order + 1;
    }
  }

  /**
   * The decoder as a loop: one pass over the blocks, pushing an element per
   * filled-in field and advancing the order counter, popping the plain image again when it
   * turns out to carry a caption.
   */
  method ConvertBlogToSections(post: Post, now: nat) returns (sections: seq<Section>)
    ensures sections == BlogSections(post, now)
  {
    var env := Env(now, SourceStyles());
    var elements: seq<Element> := [];
    var order: nat := 0;
    if post.title != "" {
      elements := elements + [TextElement("title", "heading", post.title, env.styles.title, order, env)];
      order := order + 1;
    }
    assert Pass(elements, order) == TitlePass(post, env);
    var i := 0;
    while i < |post.content|
      invariant 0 <= i <= |post.content|
      invariant Pass(elements, order) == DecodeBlocks(TitlePass(post, env), post.content[..i], env)
    {
      elements, order := PushBlock(elements, order, post.content[i], env);
      assert post.content[..i + 1][..i] == post.content[..i];
      i := i + 1;
    }
    assert post.content[..|post.content|] == post.content;
    if |elements| > 0 {
      sections := [Section("blog-section-" + NatToString(env.now), 1, elements, env.styles.section)];
    } else {
      sections := [];
    }
  }
}
