/**
 * The stored blog schema the JSON exporters produce: a list of content blocks, each an object
 * whose keys (`subtitle`, `paragraph`, `image`, `video`, `cta`, `table`, or an element type
 * name) map to the data `getContentData` extracts from one element.
 */
module Schema {
  import opened Wrappers
  import opened Records
  import opened Document
  import opened Video

  /**
   * What `getContentData` returns for one element. `DText` is a string; `DRaw` is the object
   * content of an element whose type has no case of its own (passed through by `content || ''`).
   */
  datatype Data =
    | DText(text: string)
    | DRaw(raw: Content)
    | DImage(url: string, alt: string, caption: string)
    | DVideo(url: string, embedUrl: string)
    | DCta(text: string, link: string, target: string)
    | DTable(headers: seq<string>, rows: seq<seq<string>>)

  /** One content block: an object with ordered keys. */
  type Block = Record<Data>

  /** `content || ''` for a string or an object. */
  function TextOrRaw(c: Content): Data
  {
    if c.Str? then DText(c.text) else DRaw(c)
  }

  /**
   * `getContentData`. `None` is the `null` a spacer yields. The element's content must be a
   * string for the types that read it as one (`WellTyped`).
   */
  function ContentData(e: Element): (d: Option<Data>)
    requires WellTyped(e)
    ensures d.None? <==> e.kind == "spacer"
    ensures e.kind == "heading" || e.kind == "text" || e.kind == "paragraph" ==> d == Some(DText(e.content.text))
  {
    if e.kind == "heading" || e.kind == "text" || e.kind == "paragraph" then Some(DText(e.content.text))
    else if e.kind == "image" then Some(DImage(e.content.text, e.alt, ""))
    else if e.kind == "image-caption" then
      Some(match e.content
        case Caption(url, caption, alt) => DImage(url, alt, caption)
        case Grid(_, _) => DImage("", "", "")
        case Str(url) => DImage(url, e.alt, ""))
    else if e.kind == "video" then Some(DVideo(e.content.text, ArrayEmbedUrl(e.content.text)))
    else if e.kind == "button" then Some(DCta(e.content.text, e.link, if e.openInNewTab then "_blank" else "_self"))
    else if e.kind == "table" then
      Some(match e.content
        case Grid(headers, rows) => DTable(headers, rows)
        case _ => DTable([], []))
    else if e.kind == "spacer" then None
    else Some(TextOrRaw(e.content))
  }

  /** Whether `if (contentData)` takes the branch: `null` and `''` are falsy, objects are truthy. */
  predicate Truthy(d: Option<Data>)
  {
    d.Some? && d.value != DText("")
  }

  /**
   * The fields `getContentData` reads: a button's target is `_blank` exactly when it opens in a
   * new tab, a plain image has an empty caption, an image-caption object supplies url, alt and
   * caption, a table without object content is empty, and only text-valued data can be falsy.
   */
  lemma ContentDataFields(e: Element)
    requires WellTyped(e)
    ensures e.kind == "button" ==>
      ContentData(e) == Some(DCta(e.content.text, e.link, if e.openInNewTab then "_blank" else "_self")) &&
      (ContentData(e).value.target == "_blank" <==> e.openInNewTab)
    ensures e.kind == "image" ==> ContentData(e) == Some(DImage(e.content.text, e.alt, ""))
    ensures e.kind == "image-caption" && e.content.Caption? ==>
      ContentData(e) == Some(DImage(e.content.imageUrl, e.content.alt, e.content.caption))
    ensures e.kind == "table" && !e.content.Grid? ==> ContentData(e) == Some(DTable([], []))
    ensures e.kind == "video" ==> ContentData(e) == Some(DVideo(e.content.text, ArrayEmbedUrl(e.content.text)))
    ensures !Truthy(ContentData(e)) <==>
      e.kind == "spacer" || (e.kind != "image" && e.kind != "image-caption" && e.kind != "video" &&
                            e.kind != "button" && e.kind != "table" && e.content == Str(""))
  {
  }
}
