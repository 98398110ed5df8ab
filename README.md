# A verified model of a drag-and-drop page builder's core

The page builder keeps a document of sections. Each section has a column count, a style, and a bag of
elements: headings, text, paragraphs, images, captioned images, videos, buttons, tables and spacers.
Each element carries a column index and an order key.

This project models, in Dafny, the logic that changes the document and reads it out. It proves what the
builder promises about each part.

- **The builder reducer** (`Reducer`, `ReducerFacts`). It is one function `Apply(state, action)` over
  the builder state. The two loops that rewrite element orders in place are methods, proved equal to
  their reference functions.
- **The blog decoder** (`Blog`, `BlogFacts`). It turns a `{title, content: [block]}` post into at most
  one single-column section. It is written both as the push-and-pop loop of the source and as a
  field-by-field reference, and the two are proved equal.
- **The JSON encoders.**
  - The toolbar exporter (`Toolbar`, `ToolbarFacts`): title scan, skip-once of the title heading,
    grouping into blocks, and the per-element fallback.
  - The e-mail payload built from the toolbar exporter's output (`Toolbar.EmailPayload`).
  - The preview exporter (`PreviewJson`, `PreviewFacts`), a divergent copy.
  - The content extraction both share (`Schema`) and the three video-address rewrites (`Video`).
- **The two HTML serialisers.** These are the flat-list exporter (`Helpers`) and the preview's page
  export (`PreviewHtml`). Both build on the inline-style serialisation (`Styles`), which is proved to
  parse back.
- **The two drop zones.**
  - The canvas (`CanvasDrop`) and a section column (`SectionDrop`) share one midpoint scan
    (`DragDrop.InsertionIndex` and the loop `DragDrop.Scan`).
  - Their handlers are modelled by the reducer actions they dispatch. A section's recorded drop
    position (`dragOverPosition`, shared by all its columns) is a field of the class
    `SectionDrop.DropZone`.
- **The table editor** (`TableEdit`). Pure updaters over `{headers, rows}`, plus the editor class
  `TableEditor`.
- **The video editor** (`VideoEditing`). The draft-address editor class `VideoEditor`.

Supporting modules:

- `Records`: JavaScript objects as ordered entry lists, where assignment keeps a key's place and a
  spread is a merge.
- `Strings`: `indexOf`, `split`, `join`, `trim` and `encodeURIComponent`.
- `Seqs`: filtering.
- `Document`: the data model, plus the stable sort by `(order || 0)` that every column display uses.
- `Columns`: the displayed columns of a page in visiting order.

Inputs that the source takes from the environment are parameters of the model:

- the fresh ids from `uuidv4()` (`newId` of an action);
- the `Date.now()` reading that goes into the decoder's ids (`now`; the source reads the clock
  separately for the section and each element, and the model takes one value for all of them);
- the ISO date of an export (`date`);
- the configured site address of the e-mail link (`genLink`);
- the measured midpoints of the DOM nodes (`measure` functions returning an optional `real`);
- the `isOver({shallow: true})` and bounding-box results of a column hover;
- the printed column width `100 / columns` (`width`, `widthOf`).

Behaviours of the code that a reader of the builder might not expect:

- The blog decoder returns no section at all when the post has neither a title nor a filled-in field.
  It does not always build exactly one section (`BlogFacts.DecodePostShape`).
- The decoder's orders strictly increase, but they are not consecutive. A captioned image uses up two
  order values and leaves the first unused, so a post without a title whose first block is a
  captioned image starts at order 1 (`BlogFacts.CaptionSkipsAnOrder`).
- The toolbar's fallback pass does not skip the title heading again. The grouping pass has always
  consumed the skip flag by then. So a page holding only its title heading exports that heading, with
  its untrimmed text, as `{heading}` (`ToolbarFacts.FallbackShape`, `ToolbarFacts.TitleConsumed`).
- `sendEmail` computes a subject from the first subtitle but never sends it. The request carries the
  title, the link, the trimmed paragraph and `subs` (`ToolbarFacts.EmailPayloadShape`).

## Model

| member | source | states |
|---|---|---|
| Document.InitialState | src/context/BuilderContext.js:6-16 | The builder starts with no sections, no selection, preview off, no drag index, and a canvas whose minimum height is `100vh`. |
| Document.SortByOrderCorrect | src/components/Toolbar/Toolbar.js:235-237 | Sorting a column's elements by `(order \|\| 0)` returns the same elements, sorted by order, with equal orders kept in input order (stable). |
| Document.ColumnViewCorrect | src/components/Section/Section.js:291-293 | A displayed column is sorted by order and holds exactly the section's elements with that column index. |
| Records.GetMerge | src/context/BuilderContext.js:141-143 | In `{...a, ...b}` a key of `b` takes `b`'s value and every other key keeps `a`'s value. |
| Records.MergeKeepsKeys | src/context/BuilderContext.js:142 | A merge keeps every key of the old object, in its old place. |
| Records.PutKeys | src/components/Toolbar/Toolbar.js:302-318 | Assigning a block key keeps an existing key's place and appends a new key last, as `JSON.stringify` will visit them. |
| Styles.StyleRoundTrip | src/utils/helpers.js:60-62 | The `key: value` strings joined by `; ` determine the style: parsing the string gives back every entry, in order. |
| Styles.ElementStyleDropsPosition | src/components/PreviewMode/PreviewMode.js:415-418 | An exported element style string has no `position` declaration, and has every other property with its value. |
| Reducer.ColumnCount | src/context/BuilderContext.js:24 | `columns \|\| 1` is never zero. It is the given count whenever that count is non-zero, and 1 when the count is missing or zero. |
| Reducer.SpliceIndex | src/context/BuilderContext.js:38-40 | `splice(start, 0, x)` inserts at `start` when it is within the array, at the end when it is past it, and counts a negative `start` from the end (clamped at 0). |
| Reducer.ShiftOrders | src/context/BuilderContext.js:76-83 | The in-place order loop of ADD_ELEMENT_TO_SECTION computes the reference rewrite `ShiftedOrders`. |
| Reducer.FindIndex | src/context/BuilderContext.js:103 | `find` by id gives the first element with that id, or reports that no element has it. |
| Reducer.RenumberColumn | src/context/BuilderContext.js:115-119 | The in-place renumbering loop of MOVE_ELEMENT computes the reference rewrite `Renumbered`. |
| ReducerFacts.ShiftedOrdersAt | src/context/BuilderContext.js:75-83 | An element of the payload's column at filtered position `idx >= insertIndex` gets order `(order \|\| idx) + 1`. Every other element is untouched. |
| ReducerFacts.RenumberedAt | src/context/BuilderContext.js:111-119 | Another element of the target column at filtered position `idx >= newOrder` gets order `idx + 1`, not an increment. Every other element is untouched. |
| ReducerFacts.AddSectionEffect | src/context/BuilderContext.js:20-52 | ADD_SECTION inserts exactly one new section: empty, with `columns \|\| 1` and the default style. It goes at the end, or where `splice` puts it. The other sections keep their order, and `dragOverIndex` is cleared. |
| ReducerFacts.AddElementEffect | src/context/BuilderContext.js:54-95 | ADD_ELEMENT_TO_SECTION appends exactly one element to the matching section, with all its fields. Existing elements change only their order, and only as the shift states. Other sections, the selection, preview flag, drag index and canvas style are untouched. |
| ReducerFacts.AddElementUnknownSection | src/context/BuilderContext.js:69-94 | Adding to a section id no section has changes nothing. |
| ReducerFacts.MoveElementEffect | src/context/BuilderContext.js:97-129 | MOVE_ELEMENT keeps the element count. The moved element gets the new column and order, the target column is renumbered, and nothing else in the section changes. A missing id changes nothing. Selection, preview flag, drag index and canvas style are unchanged. |
| ReducerFacts.MovedElementsEffect | src/context/BuilderContext.js:102-125 | Within the section's element list: the moved element takes the new column and order, every other element of the target column is renumbered around it, and a missing id leaves the list unchanged. |
| ReducerFacts.MoveMissingElement | src/context/BuilderContext.js:103-105 | A move of an id that no element carries leaves the state as it was. |
| ReducerFacts.MergedStyleGet | src/context/BuilderContext.js:141-143 | An update's style is a shallow merge: new keys win, old keys survive. Without a style in the update, the style is kept. |
| ReducerFacts.UpdateElementEffect | src/context/BuilderContext.js:131-157 | UPDATE_ELEMENT changes only the elements with that id: every carried field is overwritten and the style merged. A selected element with that id becomes the updated element, a selected section with that id takes the merged style, and any other selection is kept. Preview flag, drag index and canvas style are unchanged. |
| ReducerFacts.UpdateSectionEffect | src/context/BuilderContext.js:159-182 | UPDATE_SECTION changes only the style of the sections with that id. A selected element with that id takes the same field-by-field update as under UPDATE_ELEMENT, a selected section with that id takes the merged style, and any other selection is kept. Preview flag, drag index and canvas style are unchanged. |
| ReducerFacts.DeleteElementEffect | src/context/BuilderContext.js:184-192 | DELETE_ELEMENT keeps every section but removes every element with that id and no other. The survivors are the originals at strictly increasing positions, each once, and a position survives exactly when its id differs. The selection is cleared exactly when its id is that id. Preview flag, drag index and canvas style are unchanged. |
| ReducerFacts.DeleteSectionEffect | src/context/BuilderContext.js:194-199 | DELETE_SECTION keeps exactly the sections with another id, elements and all, and always clears the selection. Without a match the sections are unchanged. Preview flag, drag index and canvas style are unchanged. |
| ReducerFacts.DeleteSectionKeepsOrder | src/context/BuilderContext.js:194-199 | The surviving sections are the originals at strictly increasing positions, each once, and a position survives exactly when its id differs. |
| ReducerFacts.TogglePreviewTwice | src/context/BuilderContext.js:213-217 | TOGGLE_PREVIEW negates the preview flag and drops the selection, so applying it twice restores the flag. |
| ReducerFacts.LoadBlogDataEffect | src/context/BuilderContext.js:219-225 | LOAD_BLOG_DATA replaces the sections and drops the selection. It keeps the canvas style unless a new one is given. |
| ReducerFacts.ClearCanvasEffect | src/context/BuilderContext.js:227-231 | CLEAR_CANVAS gives the initial state with the current canvas style, and is idempotent. |
| ReducerFacts.SimpleActionsEffect | src/context/BuilderContext.js:201-234 | SELECT_ELEMENT and SET_DRAG_OVER_INDEX set their one field. An unknown action returns the state unchanged. |
| Blog.PushBlock | src/context/BuilderContext.js:369-504 | One block's pushes, the pop for a captioned image and the order counter give the reference pass for that block. |
| Blog.PushTextFields | src/context/BuilderContext.js:371-405 | Pushing the subtitle and then the paragraph, each only when non-empty and each taking the next order, yields the reference steps for the text fields. |
| Blog.PushImageFields | src/context/BuilderContext.js:407-444 | Pushing the plain image and, for a caption, popping it and pushing the image-caption with the next order yields the reference image steps. |
| Blog.PushEmbedFields | src/context/BuilderContext.js:446-504 | Pushing the video, the button and the table, each when present and each taking the next order, yields the reference steps for those fields. |
| Blog.ConvertBlogToSections | src/context/BuilderContext.js:326-513 | The decoding loop returns exactly the reference decoding of the post. |
| BlogFacts.PushBlockFieldsExplicit | src/context/BuilderContext.js:372-504 | The push-and-pop pass over one block appends exactly that block's reference elements, in the fixed field order, and advances the counter by the orders they use. |
| BlogFacts.BlocksElementsDecoded | src/context/BuilderContext.js:368-506 | The elements of a run of blocks sit in column 0, are well typed, and have strictly increasing orders within the orders they use up. |
| BlogFacts.CaptionSkipsAnOrder | src/context/BuilderContext.js:426-445 | A captioned image replaces the plain image and takes the next order, so the plain image's order is left unused. |
| BlogFacts.TextsBelow | src/context/BuilderContext.js:371-405 | A block's subtitle and paragraph take orders below the image's. |
| BlogFacts.EmbedsAbove | src/context/BuilderContext.js:446-504 | A block's video, button and table take orders from the one after the image's onward. |
| BlogFacts.DecodePostShape | src/context/BuilderContext.js:326-513 | The decoder returns no section exactly when nothing is filled in. Otherwise it returns one single-column section: the title heading first (when there is a title), then every block's elements, in column 0, with strictly increasing orders. |
| BlogFacts.TitleLeads | src/context/BuilderContext.js:349-366 | A non-empty title becomes the first element: a heading with order 0 holding the title. |
| Schema.ContentData | src/components/Toolbar/Toolbar.js:369-430 | Extraction yields `null` exactly for a spacer, and the text itself for headings, text and paragraphs. |
| Schema.ContentDataFields | src/components/Toolbar/Toolbar.js:369-430 | A button's target is `_blank` exactly when it opens in a new tab. A plain image has an empty caption. A captioned image supplies its url, alt and caption. A table without object content is empty. Only empty text is falsy. |
| Video.EmbedUrlCases | src/components/DraggableElements/VideoElement/VideoElement.js:35-52 | Watch urls are cut at the first `&` after `v=`, short urls at the first `?`, Vimeo urls keep the text after the first `vimeo.com/`, up to a second one if there is one. They are tested in that order, and other urls come back unchanged. |
| Video.AfterExists | src/components/DraggableElements/VideoElement/VideoElement.js:37-48 | Each url a rewrite reads contains the marker it splits on, so `split(...)[1]` exists. |
| Video.GuardedEmbedUrlSame | src/components/PreviewMode/PreviewMode.js:270-285 | The preview's guarded rewrite equals the video element's unguarded one on every string. |
| Video.ArrayEmbedUrlCases | src/components/Toolbar/Toolbar.js:432-447 | The exporters' rewrite gives `''` for an empty url, and otherwise comma-joins everything after the id instead of cutting it. |
| Video.EmbedHelpersAgree | src/components/PreviewMode/PreviewMode.js:188-203 | When nothing follows the id, the comma-joining and the cutting rewrites agree. |
| Video.ShortUrlWithQuery | src/components/Toolbar/Toolbar.js:439-442 | `p + "youtu.be/" + id + "?" + q` becomes `id,q` in the exporters but just `id` in the video element. |
| Video.ShortUrlExample | src/components/Toolbar/Toolbar.js:432-447 | Worked example: `https://youtu.be/abc123?t=5` becomes `https://www.youtube.com/embed/abc123,t=5` in the exporters and `.../embed/abc123` in the video element. |
| Strings.TrimShape | src/components/Toolbar/Toolbar.js:240-241 | `trim` removes all-space text from both ends and nothing else. |
| Strings.TrimIdempotent | src/components/Toolbar/Toolbar.js:273-276 | A trimmed title trims to itself, so it can match a heading's trimmed text. |
| Strings.BlankIff | src/components/Toolbar/Toolbar.js:240 | `!s.trim()` holds exactly when every character is a space. |
| Strings.EncodeURIComponentSafe | src/components/Toolbar/Toolbar.js:61 | `encodeURIComponent` emits only unreserved characters and `%XX` escapes. |
| Strings.EncodeURIComponentUnreserved | src/components/Toolbar/Toolbar.js:61 | A title that is all unreserved characters is put into the link unchanged. |
| Strings.PercentByteDecodes | src/components/Toolbar/Toolbar.js:61 | Each `%XX` escape reads back, as two hexadecimal digits, as the byte it encodes. |
| Strings.JoinSplit | src/utils/helpers.js:76 | Lines joined by `\n`, none of them holding one, split back into exactly those lines. |
| Columns.SectionColumns | src/components/Toolbar/Toolbar.js:234-237 | A section's visited columns are `0 .. columns - 1`, each the displayed column view. |
| Columns.PageColumnsWellTyped | src/components/Toolbar/Toolbar.js:261-266 | A page of well-typed elements shows only well-typed columns. |
| Toolbar.ColumnTitleScan | src/components/Toolbar/Toolbar.js:239-245 | The inner title loop finds the trimmed text of a column's first non-blank heading, or reports none. |
| Toolbar.SectionTitleScan | src/components/Toolbar/Toolbar.js:234-247 | The middle loop finds the title of a section's first displayed column that has one. |
| Toolbar.ColumnsTitleScan | src/components/Toolbar/Toolbar.js:236-246 | Scanning a run of columns in order and leaving at the first one with a title yields exactly the page-title function of that run; `found` holds iff some column has a title. |
| Toolbar.FindTitle | src/components/Toolbar/Toolbar.js:227-248 | The title scan finds the page title of the visited columns, or reports none. |
| Toolbar.GroupElement | src/components/Toolbar/Toolbar.js:271-325 | One element of the grouping loop (skip, flush, append or slot) is the reference step. |
| Toolbar.GroupColumnLoop | src/components/Toolbar/Toolbar.js:263-331 | One column is grouped with a fresh block and a final flush. |
| Toolbar.GroupSection | src/components/Toolbar/Toolbar.js:261-333 | One section's displayed columns are grouped in visiting order. |
| Toolbar.GroupLoop | src/components/Toolbar/Toolbar.js:261-333 | The grouping loop over the page computes the reference grouping. |
| Toolbar.FallbackColumnLoop | src/components/Toolbar/Toolbar.js:342-359 | The fallback column loop emits one block per truthy element, with the same skip rule. |
| Toolbar.FallbackSection | src/components/Toolbar/Toolbar.js:336-361 | One section of the fallback is the reference fallback over its columns. |
| Toolbar.FallbackLoop | src/components/Toolbar/Toolbar.js:335-362 | The fallback loop over the page is the reference fallback. |
| Toolbar.GenerateJson | src/components/Toolbar/Toolbar.js:225-365 | `generateJSON` returns the reference export object: title, fixed fields, grouped content, or the fallback when grouping produced nothing. |
| Toolbar.FirstParagraphBlock | src/components/Toolbar/Toolbar.js:42-44 | `find` gives the first block with a non-blank paragraph, or none exactly when no block has one. |
| ToolbarFacts.ColumnTitleFirst | src/components/Toolbar/Toolbar.js:239-245 | A column's title is the trimmed text of its first non-blank heading, and there is none without one. |
| ToolbarFacts.PageTitleFirst | src/components/Toolbar/Toolbar.js:231-248 | The page title is the title of the first visited column that has one. |
| ToolbarFacts.TitleTrimmed | src/components/Toolbar/Toolbar.js:241 | A found title is non-blank and already trimmed. |
| ToolbarFacts.DefaultTitleIff | src/components/Toolbar/Toolbar.js:227-251 | The export is titled `Generated Website` exactly when no visited heading is non-blank. Otherwise it carries the found title. |
| ToolbarFacts.GroupElementsSkip | src/components/Toolbar/Toolbar.js:273-276 | The skip flag stays on exactly when it started on and no element matched the title; at most one element is skipped. |
| ToolbarFacts.GroupColumnsSkip | src/components/Toolbar/Toolbar.js:259-333 | Across columns, the flag stays on exactly when no heading of the page matched the title. |
| ToolbarFacts.TitleConsumed | src/components/Toolbar/Toolbar.js:259-276 | When a title was found, the grouping pass always consumes the skip flag: the title's own heading matches it. |
| ToolbarFacts.GroupColumnsGood | src/components/Toolbar/Toolbar.js:269-331 | Every grouped block has at least one key, no key twice, and `subtitle` only as its first key, so blocks never span columns. |
| ToolbarFacts.WebsiteBlocksGood | src/components/Toolbar/Toolbar.js:261-362 | Every exported block is a non-empty object with distinct keys. |
| ToolbarFacts.FallbackColumnsSingle | src/components/Toolbar/Toolbar.js:349-357 | Every fallback block holds exactly one key. |
| ToolbarFacts.FallbackShape | src/components/Toolbar/Toolbar.js:335-362 | When grouping produced nothing, the fallback yields nothing. The one exception is a page with a title, which yields a single block holding the title heading's untrimmed text. |
| ToolbarFacts.ParagraphsJoin | src/components/Toolbar/Toolbar.js:282-301 | Worked example: a heading then two paragraphs form one block, with the heading as subtitle and the paragraphs joined by one space. |
| ToolbarFacts.TitleAndParagraph | src/components/Toolbar/Toolbar.js:225-364 | Worked example: a page with one heading and one paragraph exports the trimmed heading as title, and one block holding only the paragraph. |
| ToolbarFacts.EmailPayloadShape | src/components/Toolbar/Toolbar.js:42-63 | No request is made without a non-blank paragraph. A request carries the title, a link ending in the encoded title, and the trimmed first non-blank paragraph. |
| PreviewJson.PreviewColumnLoop | src/components/PreviewMode/PreviewMode.js:38-98 | One column of the preview's grouping loop is the reference grouping: only headings open a block. |
| PreviewJson.PreviewSection | src/components/PreviewMode/PreviewMode.js:35-100 | One section's displayed columns are grouped in visiting order. |
| PreviewJson.GeneratePreviewJson | src/components/PreviewMode/PreviewMode.js:26-123 | The preview's `generateJSON` is the reference export, including the failure of its fallback. |
| PreviewFacts.PreviewFailsIff | src/components/PreviewMode/PreviewMode.js:103-120 | The preview export fails exactly on a non-empty page whose every displayed element is falsy. Otherwise it carries the fixed title and the `Website` category. |
| PreviewFacts.PreviewStepProgress | src/components/PreviewMode/PreviewMode.js:45-92 | A falsy element changes nothing, and a truthy one always leads to a block. |
| PreviewFacts.PreviewColumnsTruthy | src/components/PreviewMode/PreviewMode.js:35-100 | One truthy displayed element anywhere is enough for the grouping to yield a block. |
| PreviewFacts.ExportersAgree | src/components/PreviewMode/PreviewMode.js:50-68 | With nothing to skip and no `text` element, the toolbar and the preview group identically. |
| PreviewFacts.HeadingThenText | src/components/PreviewMode/PreviewMode.js:61-68 | A heading followed by text is one block in the preview but two in the toolbar. |
| PreviewHtml.RenderStyle | src/components/PreviewMode/PreviewMode.js:218-219 | The rendered style has no `position`, and has every other property with its value. |
| PreviewHtml.ButtonAction | src/components/PreviewMode/PreviewMode.js:430-432 | A button has an `onclick` exactly when it has a link. |
| PreviewHtml.ElementHtmlEmpty | src/components/PreviewMode/PreviewMode.js:420-438 | A fragment is empty exactly for the types without a case: image-caption, table, spacer and unknown types. |
| PreviewHtml.ElementHtmlOneLine | src/components/PreviewMode/PreviewMode.js:420-438 | A fragment holds no line break when the element's fields hold none. |
| PreviewHtml.ColumnLines | src/components/PreviewMode/PreviewMode.js:439 | A column's fragments joined by `\n` split back into exactly those fragments, in display order. |
| PreviewHtml.SectionShowsColumns | src/components/PreviewMode/PreviewMode.js:407-444 | The page renders each of a section's columns `0 .. columns - 1` as that column's filtered, sorted view. |
| DragDrop.InsertionIndex | src/components/Section/Section.js:255-270 | The insertion index lies in `[0, n]`. The item there is the first whose midpoint lies below the cursor, and no earlier item stops the scan. |
| DragDrop.Scan | src/components/Canvas/Canvas.js:21-33 | The loop with `break` computes the insertion index. |
| DragDrop.IndexUnique | src/components/Section/Section.js:256-270 | The two conditions of the scan determine the index uniquely. |
| DragDrop.UnmeasuredSkipped | src/components/Section/Section.js:260-261 | An item without a DOM node never stops the scan. Removing it moves the index only by its own slot. |
| DragDrop.IndexMonotone | src/components/Section/Section.js:264-267 | A cursor further down never gives an earlier index. |
| DragDrop.IndexPartitions | src/components/Canvas/Canvas.js:21-33 | With every item measured and midpoints ascending, the index splits the items into those at or above the cursor and those below. |
| CanvasDrop.Hover | src/components/Canvas/Canvas.js:13-37 | The hover handler, with the guard corrected, dispatches the scanned index for a section item and nothing otherwise. |
| CanvasDrop.HoverEffect | src/components/Canvas/Canvas.js:13-37 | Hovering a section item records the scanned index, which lies within `[0, sections.length]`, and changes nothing else. Other items change nothing. |
| CanvasDrop.TemplateHoverIgnored | src/components/Canvas/Canvas.js:14 | The library's section template `{columns}` never passes the guard as written, though it is registered as a section. |
| CanvasDrop.DropEffect | src/components/Canvas/Canvas.js:38-55 | Every drop clears `dragOverIndex`. A section drop inserts exactly one new section at the recorded index, or at the end. Other drops change nothing else. |
| CanvasDrop.TemplateDropAppendsAsWritten | src/components/Canvas/Canvas.js:14-41 | With the guard as written, a dragged template always lands after the last section. |
| CanvasDrop.TemplateHoverThenDrop | src/components/Canvas/Canvas.js:13-55 | With the corrected guard, hover then drop places the new section at the scanned index, the others in order. |
| CanvasDrop.NoIndicatorAfter | src/components/Canvas/Canvas.js:67-71 | After a drop, or once the cursor has left, no indicator is shown. While the cursor is over the canvas, nothing changes. |
| CanvasDrop.HoverShowsIndicator | src/components/Canvas/Canvas.js:122 | After a hover, exactly the indicator at the scanned index is shown. |
| SectionDrop.DefaultContent | src/components/Section/Section.js:20-53 | An unknown type starts with `''`. |
| SectionDrop.DefaultStyle | src/components/Section/Section.js:55-135 | An unknown type starts with `{}`. |
| SectionDrop.DefaultContentFits | src/components/Section/Section.js:20-53 | A new element's content fits its type: a string for the text-like and media types, the default table for a table, a caption object for a captioned image. |
| SectionDrop.DefaultStyleParses | src/components/Section/Section.js:55-135 | Every default style has distinct property names and serialises to a string that parses back to it. |
| SectionDrop.HoverIndexInColumn | src/components/Section/Section.js:255-272 | The recorded index lies in `[0, n]` for a column of `n` elements, and is the scan's first stop. |
| SectionDrop.DropZone.constructor | src/components/Section/Section.js:17 | No position is recorded at first. |
| SectionDrop.DropZone.Hover | src/components/Section/Section.js:243-272 | Hovering records the column and the scanned index, unless the cursor is not directly over the column or no box is found. |
| SectionDrop.DropZone.Drop | src/components/Section/Section.js:274-285 | A drop dispatches the element drop for the recorded position and then forgets the position. |
| SectionDrop.ElementDropEffect | src/components/Section/Section.js:275-282 | An element drop appends one well-typed element with the type's default content and style. Its order is the recorded index, even one recorded for another column, or else the column's length. The column's elements from that index on are shifted down one place, other elements and sections keep their values, and so do the selection, preview flag, drag index and canvas style. |
| SectionDrop.OtherDropQuiet | src/components/Section/Section.js:274-285 | An `existing-element` drop changes nothing. |
| TableEdit.AddRow | src/components/DraggableElements/TableElement/TableElement.js:31-37 | One row of `headers.length` copies of `New cell` is appended. Headers and existing rows are unchanged. |
| TableEdit.AddColumn | src/components/DraggableElements/TableElement/TableElement.js:39-44 | `New column` is appended to the headers, and `New cell` to every row. |
| TableEdit.RemoveIndex | src/components/DraggableElements/TableElement/TableElement.js:49 | Filtering out index `i` removes exactly item `i` and keeps the others in order. An out-of-range index changes nothing. |
| TableEdit.RemoveRow | src/components/DraggableElements/TableElement/TableElement.js:46-51 | Exactly row `i` is removed. Headers are unchanged. |
| TableEdit.RemoveColumn | src/components/DraggableElements/TableElement/TableElement.js:53-58 | Header `i` and cell `i` of every row are removed. |
| TableEdit.UpdateCell | src/components/DraggableElements/TableElement/TableElement.js:60-76 | A header edit replaces header `c`. A cell edit replaces cell `c` of row `r`. Nothing else changes. |
| TableEdit.EditKeepsRectangular | src/components/DraggableElements/TableElement/TableElement.js:31-76 | Every edit keeps a rectangular table rectangular. |
| TableEdit.OfferedKeepsShape | src/components/DraggableElements/TableElement/TableElement.js:118-143 | The offered controls never remove the last column or the last row. |
| TableEdit.RemoveAddedRow | src/components/DraggableElements/TableElement/TableElement.js:31-51 | Removing a row just added gives back the table. |
| TableEdit.RemoveAddedColumn | src/components/DraggableElements/TableElement/TableElement.js:39-58 | On a rectangular table, removing a column just added gives back the table. |
| TableEdit.UpdateSameValue | src/components/DraggableElements/TableElement/TableElement.js:67-74 | Writing a cell's own value back changes nothing. |
| TableEdit.CellEditLocal | src/components/DraggableElements/TableElement/TableElement.js:67-74 | A cell edit changes exactly the cell it names. |
| TableEdit.SavedTableReloads | src/components/DraggableElements/TableElement/TableElement.js:21-29 | Saved content loads back as the same table. The save update carries only content. |
| TableEdit.TableEditor.constructor | src/components/DraggableElements/TableElement/TableElement.js:6-13 | The editor starts closed, on the element's table, or on the default table for any other content. |
| TableEdit.TableEditor.Open | src/components/DraggableElements/TableElement/TableElement.js:17-19 | A double click opens the editor and keeps the table. |
| TableEdit.TableEditor.EditTable | src/components/DraggableElements/TableElement/TableElement.js:31-76 | A control replaces the table with the updater's result. |
| TableEdit.TableEditor.Save | src/components/DraggableElements/TableElement/TableElement.js:21-24 | Save dispatches `updateElement(id, {content: tableData})` and closes. |
| TableEdit.TableEditor.Cancel | src/components/DraggableElements/TableElement/TableElement.js:26-29 | Cancel reloads the element's table and closes. |
| VideoEditing.SaveEffect | src/components/DraggableElements/VideoElement/VideoElement.js:15-18 | Saving sets the element's content to the draft and keeps its other fields, so the player shows the draft's embed address. Other elements are untouched. |
| VideoEditing.VideoEditor.constructor | src/components/DraggableElements/VideoElement/VideoElement.js:6-7 | The editor starts closed, with the element's address as the draft. |
| VideoEditing.VideoEditor.Open | src/components/DraggableElements/VideoElement/VideoElement.js:10-13 | A double click opens the editor on the current address. |
| VideoEditing.VideoEditor.Input | src/components/DraggableElements/VideoElement/VideoElement.js:68 | Typing replaces the draft. |
| VideoEditing.VideoEditor.Save | src/components/DraggableElements/VideoElement/VideoElement.js:15-18 | Save dispatches `updateElement(id, {content: tempUrl})` and closes. |
| VideoEditing.VideoEditor.Cancel | src/components/DraggableElements/VideoElement/VideoElement.js:20-23 | Cancel puts the draft back to the element's address and dispatches nothing. |
| Helpers.ElementDefaultProps | src/utils/helpers.js:7-56 | Any type other than text, image, button and container gets `{content: '', style: {}}`. The four table entries have real styles. |
| Helpers.DefaultStyleParses | src/utils/helpers.js:7-56 | Every entry's style has distinct property names and parses back from its style string. |
| Helpers.DefaultContentEmpty | src/utils/helpers.js:7-56 | The default content is empty exactly for containers and types without an entry. |
| Helpers.ExportFragmentEmpty | src/utils/helpers.js:64-75 | An element's line is empty exactly for types other than text, image, button and container. |
| Helpers.ExportFragmentOneLine | src/utils/helpers.js:64-75 | An element's line holds no line break when its fields hold none. |
| Helpers.ExportHtmlParts | src/utils/helpers.js:76-104 | The page holds the canvas style string inside the `body` rule. Between `<body>` and `</body>` it holds the element lines joined by `\n` in input order. |
| Helpers.ExportCanvasStyle | src/utils/helpers.js:78-96 | A canvas style with plain property names can be read back from the page. |
| Helpers.ExportLines | src/utils/helpers.js:76-102 | The page body splits at line breaks into one line per element, in input order. |

## Left out

- Element rendering, the React editor components, the property panel, and the composition
  components: they are presentation. They reach the document only through the reducer actions modelled
  here.
- The HTTP calls (`axios.post`), alerts, status labels and clipboard writes: they are I/O. The model
  stops at the request payload `Toolbar.EmailPayload`.
- DOM measurement and scrolling: the measured midpoints and hover conditions are parameters.
- `uuidv4`, `Date.now`, `new Date().toISOString()` and `Math.random` (`generateId` in
  `src/utils/helpers.js:3-5`): they are nondeterministic, so their values are inputs.
- The printed column width `100 / columns`: floating-point formatting; it is a parameter.
- In-place aliasing: ADD_ELEMENT_TO_SECTION and MOVE_ELEMENT write to element objects shared with the
  previous state. The model computes the resulting values only.
- Reducer.ShiftOrders: the element found by id at `BuilderContext.js:78` is modelled as the element being
  visited. This holds when element ids are distinct (they are fresh `uuidv4()` values).
- Helpers.ElementDefaultProps: a type named after an inherited object property, such as
  `constructor`, gets the fallback. In the source, `defaults[type]` would find the prototype's member
  (`src/utils/helpers.js:55`).
- ReducerFacts.UpdateElementEffect and ReducerFacts.UpdateSectionEffect: keys of an update other
  than `style` are not copied onto a section, neither onto the stored section nor onto a selected
  section snapshot with that id. The section record has no such fields; UPDATE_SECTION's only caller
  sends a style alone, and UPDATE_ELEMENT reaches a section snapshot only if an element and a section
  share an id, which fresh `uuidv4()` ids rule out.
- Element content is a tagged union (string, caption object, table object). JavaScript's
  `typeof null === 'object'` quirk and non-string content in string-typed elements are not
  represented. The encoders require well-typed elements (`Document.WellTyped`), and on ill-typed ones
  the source throws at `.trim()`.
- TableEdit.TableEditor.constructor and TableEdit.TableEditor.Cancel: a non-table content loads the
  default table, since the model's editor holds a table. On mount the source keeps any truthy
  content as it is (`element.content || default`, `TableElement.js:7`), and Cancel sets the raw
  content (`TableElement.js:27`); the editor would then throw at `tableData.headers.map` (`TableElement.js:110`). Such
  content is reachable through a blog post whose table block holds a string.
- SectionDrop.DropActions: an element item without a `type` adds an element of kind `''`.
- `Toolbar.js:153-223`, the toolbar's own HTML generator: it is not part of this model. The two HTML
  exporters modelled are `exportToHTML` and the preview's `generateHTML`.
- `exportToHTML` and the style strings emit property names exactly as stored (camelCase) and
  interpolate content without escaping. The model does the same and claims nothing about CSS validity.
- Floating-point midpoints are modelled as mathematical reals, with no rounding.
- Blog.ConvertBlogToSections: the source reads `Date.now()` separately for the section and for each
  element (`src/context/BuilderContext.js:331-489`), so ids made in one pass may carry different
  readings. The model takes every reading to give the same `now`.
- The section record's `type: 'section'` field (`src/context/BuilderContext.js:23`, `:332`) is
  never read by the core, so the model's section has no such field.
- `encodeURIComponent` throws on a lone surrogate. A Dafny `char` here is a Unicode scalar value
  and cannot hold one, so that error path is not represented.

## Findings

| source | as written | input that shows it | evidently intended | confidence | as-written member | corrected member |
|---|---|---|---|---|---|---|
| src/components/Canvas/Canvas.js:14 | The hover guard asks for `item.type === 'section'`. The library's section payload is `{ columns }` (`src/components/ElementLibrary/ElementLibrary.js:28`) and has no `type`, so no index is ever recorded and every section drop appends at the end. | Dragging the section template `{columns: 2}` over the canvas, above the first section, then dropping. | The guard tests only the registered item type, `monitor.getItemType() === 'section'`. The drop then lands at the scanned index. | not executed | CanvasDrop.TemplateHoverIgnored, CanvasDrop.TemplateDropAppendsAsWritten | CanvasDrop.Hover, CanvasDrop.TemplateHoverThenDrop |
