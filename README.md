# Print dialog and tool style popup of the web viewer, in Dafny

This project models two components of the web viewer's React UI.

**The print dialog** (`PrintModal`):
- Which pages it prints: "all", the page or pair of pages the viewer shows ("current"), or a typed range ("custom").
- The rotation each page is rendered with, so that it fills a portrait sheet.
- The bookkeeping of a print job:
  - the canvas renders in flight (`pendingCanvases`);
  - the progress counter that doubles as the print lock (`count`, -1 when idle);
  - the order in which page images and notes pages are queued and joined;
  - the filter that picks the annotations printed on a notes page.
- The document watermark: the dialog records it when it opens, applies the chosen one while printing, and restores the recorded one when it closes.

**The tool style popup** (`ToolStylePopup`):
- Where it is placed under the active tool's button.
- When a click closes it.
- When it is placed again.

Files:

- `page_selection.dfy` (module `PageSelection`): the `onChange` handler.
  - "all" is a loop, modelled as a method.
  - "current" is a pure function, proved equal to a reference "spread" definition.
  - "custom" removes whitespace from the input, then calls a page-range parser that is passed in.
- `print_rotation.dfy` (module `PrintRotation`): `getDocumentRotation` and `getPrintRotation`.
  - JavaScript's truncating `%` is written out as `JsRem`.
- `print_queue.dfy` (module `PrintQueue`): annotations, the printable filter and the queue order `creatingPages` produces.
  - Also the handle-list operations the dialog performs: the `filter` on completion, and the still-pending handles.
- `print_modal.dfy` (module `PrintModal`): two classes.
  - `DocumentCore` holds the engine state the dialog reads and changes: page count, page info, annotations, watermark, the log of render requests with the handles given out, and the log of cancellations.
  - `PrintDialog` holds the component's fields and has one method per handler and callback.
  - Asynchronous callbacks are separate methods that the environment may call in any order. They are the render completion (`OnCanvasLoaded`), the page image load (`OnImageLoaded`) and the `Promise.all` resolution (`OnPagesJoined`).
  - `Valid()` ties the pending handles to the queue: they are the queued renders whose canvas has not come back.
- `print_scenario.dfy` (module `PrintScenario`): one full job on a two-page document whose renders finish in reverse order.
- `tool_style_popup.dfy` (module `ToolStylePopup`): popup placement over `real`, the click-outside decision and the `componentDidUpdate` reposition rule.
- `wrappers.dfy` (module `Wrappers`): `Option`.

Inputs the model receives as parameters:
- the custom page-range parser `getPagesToPrint`, as `PageRangeParser`;
- the note sort strategy, as `NoteSorter`;
- the engine's per-page size and rotations, as `DocumentCore.pageInfo`;
- the DOM's `Node.contains`;
- for popup placement, a `Screen`: the store's `toolButtonObjects`, the DOM query that finds a tool's button and its bounding rectangle (`findButton`), the popup's width and the window's inner width.

## Model

| member | source | states |
|---|---|---|
| PageSelection.ListAllPages | src/components/PrintModal/PrintModal.js:87-90 | "all" yields exactly 1, 2, ..., totalPages, in increasing order |
| PageSelection.CurrentPages | src/components/PrintModal/PrintModal.js:91-117 | "current" yields one page, or two consecutive ascending pages; the current page is always among them; a non-facing layout yields just the current page |
| PageSelection.CurrentPagesIsSpread | src/components/PrintModal/PrintModal.js:95-117 | for 1 <= currentPage <= pageCount, "current" equals the spread the viewer shows: the pair of slots holding the page, without the slots that are not pages of the document (`Spread`, `Clip`). Cover layouts pair pages 2-3, 4-5, ...; facing layouts pair 1-2, 3-4, ... Pages that do not exist are dropped, so every printed page is in 1..pageCount |
| PageSelection.SameSpreadSamePages | src/components/PrintModal/PrintModal.js:95-117 | asking from either page of a displayed pair prints the same pages |
| PageSelection.StripWhitespace | src/components/PrintModal/PrintModal.js:119 | the custom input without whitespace: no whitespace remains, every other character is kept, and input with no whitespace is unchanged |
| PageSelection.StripWhitespaceAppend | src/components/PrintModal/PrintModal.js:119 | the whitespace removal works piece by piece, so it keeps the order of the other characters |
| PageSelection.SelectPages | src/components/PrintModal/PrintModal.js:83-124 | the result is the "all", "current" or "custom" selection for the checked mode; "custom" is the parser's answer on the input without whitespace |
| PrintRotation.JsRem | src/components/PrintModal/PrintModal.js:216 | JavaScript `%` for a positive divisor: the same as `%` for non-negative dividends; in (-b, 0] for negative ones |
| PrintRotation.JsRemNegate | src/components/PrintModal/PrintModal.js:216 | negating the dividend negates the remainder, so a negative dividend's remainder is minus its magnitude's |
| PrintRotation.JsRemCongruent | src/components/PrintModal/PrintModal.js:216-221 | for the divisors 4 and 2, the remainder differs from the dividend by a multiple of the divisor; with the range, this fixes JavaScript's value |
| PrintRotation.DocumentRotation | src/components/PrintModal/PrintModal.js:248-254 | in 0..3 whenever (complete - viewer + 4) is non-negative; viewer rotation plus the result equals the complete rotation mod 4 |
| PrintRotation.PrintRotation | src/components/PrintModal/PrintModal.js:213-226 | for a document rotation in 0..3: the result is in 0..3; it is odd for landscape pages and even for portrait ones; a square page keeps the rotation that undoes the document's; the result is at most one step from (4 - docRot) mod 4 and in the same pair {0, 1} or {2, 3}, so an even undoing rotation is turned up by one and an odd one down by one |
| PrintRotation.PagePrintRotation | src/components/PrintModal/PrintModal.js:213-226 | for engine rotations in 0..3, the page's print rotation is in 0..3, its parity matches the orientation, a square page is turned back upright, and the result lies in the same pair {0, 1} or {2, 3} as the rotation that undoes the document's |
| PrintQueue.PrintableAnnotations | src/components/PrintModal/PrintModal.js:300-309 | an annotation is kept iff it is listable, on the page, not a reply and printable; each kept annotation occurs as often as in the engine's list |
| PrintQueue.PrintableAnnotationsAppend | src/components/PrintModal/PrintModal.js:300-309 | the filter keeps the engine's order |
| PrintQueue.PageItemsShape | src/components/PrintModal/PrintModal.js:167-175 | a page's entries are its image, then a notes page exactly when comments are included and the page has printable annotations; the notes page holds them in the sort strategy's order |
| PrintQueue.QueueOrder | src/components/PrintModal/PrintModal.js:162-179 | one page image and at most one notes page per selected page; no notes pages without comments; a non-empty queue starts with the first selected page's image |
| PrintQueue.PageEntriesInQueue | src/components/PrintModal/PrintModal.js:166-176 | the k-th selected page's image comes right after the entries of the pages before it. The next entry is that page's notes page, holding its sorted printable annotations, exactly when comments are included and the page has printable annotations |
| PrintQueue.EntriesAfter | src/components/PrintModal/PrintModal.js:166-176 | what follows a page's own entries starts with the next page's image, so a notes page after a page's image is that page's own |
| PrintQueue.QueueOrderAppend | src/components/PrintModal/PrintModal.js:166-176 | each page's entries are queued after those of the pages before it |
| PrintQueue.QueueImagesFollowSelection | src/components/PrintModal/PrintModal.js:166-167 | the page images in the queue are exactly the selected pages, in selection order |
| PrintQueue.NotesFollowTheirPage | src/components/PrintModal/PrintModal.js:169-175 | a notes page appears only when comments are included, right after its page's image, and holds that page's printable annotations in the sort strategy's order; that list is never empty |
| PrintQueue.QueueWithoutComments | src/components/PrintModal/PrintModal.js:166-176 | without comments the queue is exactly the selected pages' images |
| PrintQueue.HandlesMatchImages | src/components/PrintModal/PrintModal.js:167 | the queue waits on one render handle per page image |
| PrintQueue.Remove | src/components/PrintModal/PrintModal.js:187-189 | the completion filter drops `id` and keeps every other handle |
| PrintQueue.RemoveOccurrence | src/components/PrintModal/PrintModal.js:187-189 | among distinct handles, removing one leaves the others in their order |
| PrintQueue.Unloaded | src/components/PrintModal/PrintModal.js:165-189 | the pending handles are exactly the issued handles whose canvas has not come back |
| PrintQueue.UnloadedAfterLoad | src/components/PrintModal/PrintModal.js:187-189 | one more canvas coming back removes exactly its handle from the pending ones |
| PrintQueue.UnloadedDistinct | src/components/PrintModal/PrintModal.js:210 | handles given out once stay distinct among the pending ones |
| PrintModal.PrintRotationOfPageFacts | src/components/PrintModal/PrintModal.js:213-226 | the rotation read from the engine's page info is in 0..3 for engine rotations in 0..3, odd for landscape and even for portrait pages |
| PrintModal.PageRequestFacts | src/components/PrintModal/PrintModal.js:182-209 | a page's render request names its 0-based index, zoom 1 and the page's print rotation, which is in 0..3 with the orientation's parity |
| PrintModal.WatermarkModalOnlyWithoutWatermark | src/components/PrintModal/PrintModal.js:69-72 | the watermark modal is allowed exactly when the document has no watermark settings; an empty settings object allows it |
| PrintModal.RenderRequestsAppend | src/components/PrintModal/PrintModal.js:182-209 | the render requests of a queue are the requests of its parts, in order |
| PrintModal.DocumentCore.LoadCanvasAsync | src/components/PrintModal/PrintModal.js:204-209 | the engine returns a handle it has not given out before and logs the request |
| PrintModal.DocumentCore.CancelLoadCanvas | src/components/PrintModal/PrintModal.js:444 | the engine logs one cancellation |
| PrintModal.PrintDialog.constructor | src/components/PrintModal/PrintModal.js:40-56 | the initial state: count -1, nothing pending, nothing selected, watermark fields null |
| PrintModal.PrintDialog.PrintButtonDisabled | src/components/PrintModal/PrintModal.js:564-568 | the print button is disabled exactly when count is not -1 (`count` starts at 0 when a job starts, line 477). The job methods tie it to a running job: `CreatePagesAndPrint` disables it, render and image completions leave it as it was, and `OnPagesJoined`, `ClosePrintModal` and `CancelPrint` enable it |
| PrintModal.PrintDialog.OnChange | src/components/PrintModal/PrintModal.js:83-124 | pagesToPrint becomes the selection for the form's mode |
| PrintModal.PrintDialog.Opened | src/components/PrintModal/PrintModal.js:58-76 | on a closed-to-open change, the dialog selects pages and records the engine's watermark. It allows the watermark modal iff that watermark is undefined, null or has no keys. An open dialog changes nothing |
| PrintModal.PrintDialog.Closed | src/components/PrintModal/PrintModal.js:78-80 | on an open-to-closed change the engine gets back the recorded watermark; otherwise the engine's watermark is untouched |
| PrintModal.PrintDialog.SetWatermarkModalOption | src/components/PrintModal/PrintModal.js:454-458 | records the modal's settings |
| PrintModal.PrintDialog.CreatePagesAndPrint | src/components/PrintModal/PrintModal.js:131-156 | with an empty selection nothing changes. Otherwise: count is 0; the engine watermark is the modal's option when allowed, the recorded one otherwise; the queue is QueueOrder of the selection; one fresh render per selected page is pending; the engine received exactly those renders |
| PrintModal.PrintDialog.CreatingPages | src/components/PrintModal/PrintModal.js:162-179 | the loop resets pendingCanvases and queues QueueOrder of the selection. The pending handles are exactly the queue's fresh render handles, one per page, and the engine's requests grow by those renders in queue order |
| PrintModal.PrintDialog.QueueSelectedPages | src/components/PrintModal/PrintModal.js:165-176 | the loop's invariant: after each round the queue is QueueOrder of the pages handled so far, the pending handles are the queue's render handles, all distinct and newly given out, and the requests grew by exactly those renders |
| PrintModal.PrintDialog.QueuePage | src/components/PrintModal/PrintModal.js:166-175 | one round appends the page's entries and exactly one pending handle and one render request |
| PrintModal.PrintDialog.CreatingImage | src/components/PrintModal/PrintModal.js:181-211 | renders page - 1 at zoom 1 with the page's print rotation, and pushes the new handle onto pendingCanvases |
| PrintModal.PrintDialog.OnCanvasLoaded | src/components/PrintModal/PrintModal.js:186-189 | the completed handle leaves pendingCanvases, and the other handles stay in their order |
| PrintModal.PrintDialog.OnImageLoaded | src/components/PrintModal/PrintModal.js:195-199 | count goes up by one, except that a negative count stays -1, so a cancelled job never counts again |
| PrintModal.PrintDialog.OnPagesJoined | src/components/PrintModal/PrintModal.js:148-152 | once every page image has resolved, the browser prints the images in queue order, count is -1 and the dialog closes. An open dialog's close restores the recorded watermark; a join that arrives after the dialog was closed leaves the watermark as it is |
| PrintModal.PrintDialog.ClosePrintModal | src/components/PrintModal/PrintModal.js:437-440 | count is -1 and the dialog closes, which restores the recorded watermark |
| PrintModal.PrintDialog.CancelPrint | src/components/PrintModal/PrintModal.js:442-446 | the engine receives a cancellation for every pending handle, in order, and count is -1 |
| PrintModal.OneHandlePerPage | src/components/PrintModal/PrintModal.js:166-167 | a queue built for a selection waits on one render per selected page |
| PrintModal.QueueStep | src/components/PrintModal/PrintModal.js:166-175 | one loop round extends the queue from the first i selected pages to the first i + 1 |
| PrintModal.HandleStep | src/components/PrintModal/PrintModal.js:167-175 | one loop round adds exactly one handle and one render request |
| PrintScenario.PrintTwoPagesOutOfOrder | src/components/PrintModal/PrintModal.js:131-211 | on a two-page document whose second render finishes first: the images are printed as page 1 then page 2, count reaches 2, the modal's watermark is on the document while printing, the document's own watermark returns on close, and the print button is disabled while printing and enabled after |
| PrintScenario.FinishInReverse | src/components/PrintModal/PrintModal.js:186-199 | completions in reverse order still resolve every page image and count both pages |
| ToolStylePopup.PopupPosition | src/components/ToolStylePopup/ToolStylePopup.js:105-120 | the top is the button's bottom + 1 and the left is never negative. The popup is centred on the button when the window has room, and never moves right of the centred place. A popup no wider than the window never sticks out on the right. One pushed back ends 12 px before the right edge, or sits at 0 when that does not fit |
| ToolStylePopup.Reposition | src/components/ToolStylePopup/ToolStylePopup.js:86-103 | the lookup throws exactly when the active tool has no entry in `toolButtonObjects`; with an entry but no button on the page the popup keeps its place; otherwise it takes the computed place, one pixel below the button and never left of 0 |
| ToolStylePopup.RepositionIdempotent | src/components/ToolStylePopup/ToolStylePopup.js:54-58 | placing the popup again from the same button changes nothing |
| ToolStylePopup.DidUpdate | src/components/ToolStylePopup/ToolStylePopup.js:41-58 | a disabled popup is left alone and no overlay is closed; the update throws only when a placement is due and the active tool has no entry |
| ToolStylePopup.ClosesOnClickOutside | src/components/ToolStylePopup/ToolStylePopup.js:65-76 | a click closes the popup iff its target lies inside neither the tools overlay nor the header. A missing element counts as not clicked, and a click on either element itself never closes the popup |
| ToolStylePopup.DidUpdatePlacesOnce | src/components/ToolStylePopup/ToolStylePopup.js:41-58 | the update has the outcome of a single placement (a position or the throw) iff it is enabled and it either just opened or another tool became active. A disabled popup never moves. The other overlays are closed only when an enabled popup opens |

## Left out

- The custom page-range parser `getPagesToPrint` is not part of this model. It is a parameter; only the whitespace removal before the call is modelled.
- The note sort strategies are not part of this model. The chosen strategy is a parameter.
- Canvas and DOM work are foreign calls and drawing, so they are not modelled. This covers:
  - `positionCanvas`;
  - `drawAnnotationsOnCanvas` and `createWidgetContainer` (html2canvas);
  - building the notes-page HTML (`creatingNotesPage`, `getNote*`);
  - the dialog's rendering.
- `printPages` itself is not modelled (`window.print`, `execCommand`, the print handler element); the model records each list of images handed to it.
- The print-quality multiplier (`setPrintQuality`, `resetPrintQuality`) is browser state with no effect on the modelled data.
- Promise scheduling is not modelled as concurrency. Each callback is a method that may run in any order once its preconditions hold.
  - The rejection path of `Promise.all` (logging the error) is not modelled.
  - Only the current job's join is modelled. `CreatePagesAndPrint` replaces `jobs` and `awaitingJoin`, so the join of any earlier job is dropped: one that was cancelled, one whose dialog was closed (the renders keep running), or one re-submitted with Enter in the custom-range box (the form's `onSubmit` has no `count` guard). In the source such a join still prints the earlier job's pages and closes the dialog of the job that replaced it.
- PrintModal.PrintDialog.Opened: `getWatermark()` resolves asynchronously, but the model applies its value at once. So a close that comes before the promise resolves is not captured.
- PrintModal.DocumentCore.LoadCanvasAsync: the engine's handle allocation is modelled as a counter. The model assumes only that handles are fresh.
- UI-only state (`isWatermarkModalVisible`, `closeElements` of other modals, the `onFocus` radio switch, translated labels) is not modelled.
- Pixel values and page sizes are modelled as `real`, not floating point.
- ToolStylePopup.DidUpdate: when the lookup throws, the model records the throw as the outcome; what React then does with the error is not modelled.
- The `resize` listener that closes the tool style popup, and `handleStyleChange`, are event wiring and calls to helpers outside this model.
- The following are not part of this model; they are rendering, wiring or end-to-end tests with no logic to state:
  - `NoteContent`;
  - `MenuOverlay`;
  - `WatermarkModal`;
  - `ThumbnailControls`;
  - the watermark end-to-end test.
- Cover layouts pair pages as the code does (`PrintModal.js:102`): an odd current page goes with the page before it, and an even one with the page after it.
