# PDF annotation workspace and upload screen, modelled in Dafny

This project models the two stateful components of an in-browser PDF
annotation tool:

- **The annotation workspace** (`app/pdfeditor/pdfeditorworkspace/page.tsx`).
  It keeps the current page, the page count, the zoom, the active tool and the
  highlight colour. It keeps the committed strokes per page and the stroke
  being drawn. It keeps one ordered list of floating text boxes and the id of
  the box being edited. Event handlers move these fields. The model is a class,
  `Workspace.PdfEditorWorkspace`, with one method per handler. Each method
  changes only the fields its `modifies` clause names and states their new
  values. `Valid()` is the invariant that every handler keeps. The pure updates
  the handlers perform are functions with lemmas, in modules `Viewport` (page
  and zoom clamps), `Annotations` (stroke records, the per-page store, the
  stroke style rule, the replay) and `TextBoxes` (edit, delete, page filter).
- **The upload screen** (`app/pdfeditor/page.tsx`). It checks the file's MIME
  type and size, and drives `selectedFile`, `uploadStatus`, `errorMessage` and
  `isDragging`. The model is the class `Upload.PdfEditor` and the pure check
  `Upload.Check`.

Modelling choices:

- The zoom is a whole number of quarters: start 6, range 2 to 12, step 1. This
  is exactly the factor 1.5 in [0.5, 3] with steps of 0.25 (`Viewport.ScaleConstants`).
- Coordinates are `real`s in container pixels, as recorded. They are not rescaled
  when the zoom changes, and the model does not rescale them either.
- Ids come from the clock in the source. Here they are parameters of the handlers.
  Nothing claims they are unique. With duplicate ids, an edit rewrites every box
  carrying the id and a deletion removes every such box. When every new box gets
  an id no box carries, edits and deletions keep the ids distinct
  (`TextBoxes.PlaceKeepsDistinct`, `RenameKeepsDistinct`, `RemoveKeepsDistinct`),
  and then at most one box is rendered editable (`Workspace.AtMostOneEditable`).
- A browser file is the record `PdfFile(mime, size, name)`.
- Each handler runs on the state left by the previous one.
- The canvas is sized by the zoom, and resizing a canvas erases it. The ghost
  field `replayShown` records whether the canvas shows the current page's
  committed strokes; `ShownStrokes()` is what it shows.
- Module `Scenarios` holds client sessions: a round trip to the next page and
  back, a highlight that survives a visit to another page, a text box that
  follows its page, a click without a drag, a
  deletion while editing, and a rejected file after a good one. Each asserts its
  outcome from the handlers' contracts alone.

Behaviour the model records as the code has it:

- Mouse-down under a drawing tool always starts a new stroke of one point. A
  stroke already in progress is dropped; it is not refused.
- A press and release without movement commits an annotation of one point. The
  redraw only paints annotations with more than one point, so that annotation is
  stored but never painted again (`Annotations.ReplaySnoc`, `Scenarios.ClickWithoutDrag`).
- A zoom that changes the factor resizes the canvas, which erases the committed
  strokes and any live pieces. The redraw runs only when the page or the store
  changes, not on a zoom. So the strokes stay hidden until the next page change,
  commit or clear (`Scenarios.ZoomThenNavigate`). A zoom at its limit changes
  nothing.
- Clicking a box makes it the one being edited without committing the box that
  was being edited. In a browser, pressing on another box first takes the focus
  from a focused box; that blur is the separate event `BlurTextBox`, which then
  runs before `ClickTextBox` and stores the focused box's text.
- Leaving a box always rewrites its text with the displayed text, changed or not.
- Changing page or tool during a stroke neither commits nor cancels it.
- The type union includes a `text` tool that no button selects. Under it,
  mouse-down draws and the stroke style is the eraser's.
- With no document loaded (`numPages` still 0), the next-page handler sets the
  page to 0. Its button is disabled in that state. The invariant admits any page
  while `numPages` is 0, and pages 1 to `numPages` otherwise.

## Model

| member | source | states |
|---|---|---|
| `Viewport.PreviousPage` | app/pdfeditor/pdfeditorworkspace/page.tsx:125-127 | the page never goes below 1; from a page above 1 it moves back exactly one |
| `Viewport.NextPage` | app/pdfeditor/pdfeditorworkspace/page.tsx:129-131 | the page never exceeds `numPages`; below it the page moves forward exactly one |
| `Viewport.ZoomIn` | app/pdfeditor/pdfeditorworkspace/page.tsx:133-135 | the zoom never exceeds 3 (12 quarters); below it the zoom grows by exactly 0.25 |
| `Viewport.ZoomOut` | app/pdfeditor/pdfeditorworkspace/page.tsx:137-139 | the zoom never goes below 0.5 (2 quarters); above it the zoom shrinks by exactly 0.25 |
| `Viewport.ScaleConstants` | app/pdfeditor/pdfeditorworkspace/page.tsx:41 | the quarter counts 6, 2 and 12 are the factors 1.5, 0.5 and 3, and one quarter step is 0.25 |
| `Viewport.NavigationStaysInRange` | app/pdfeditor/pdfeditorworkspace/page.tsx:125-131 | both page buttons keep an in-range page in range |
| `Viewport.NextThenPrevious` | app/pdfeditor/pdfeditorworkspace/page.tsx:125-131 | next then previous returns to the starting page unless it was the last |
| `Viewport.PreviousThenNext` | app/pdfeditor/pdfeditorworkspace/page.tsx:125-131 | previous then next returns to the starting page unless it was the first |
| `Viewport.ZoomStaysInRange` | app/pdfeditor/pdfeditorworkspace/page.tsx:133-139 | both zoom buttons keep the zoom within [0.5, 3] |
| `Viewport.ZoomInThenOut` | app/pdfeditor/pdfeditorworkspace/page.tsx:133-139 | zoom out undoes zoom in below the maximum |
| `Viewport.ZoomOutThenIn` | app/pdfeditor/pdfeditorworkspace/page.tsx:133-139 | zoom in undoes zoom out above the minimum |
| `Annotations.Commit` | app/pdfeditor/pdfeditorworkspace/page.tsx:222-225 | the page's list gains exactly the new annotation at its end; every other page's list is unchanged |
| `Annotations.ClearPage` | app/pdfeditor/pdfeditorworkspace/page.tsx:412 | the page's list becomes empty; every other page's list is unchanged |
| `Annotations.NewAnnotation` | app/pdfeditor/pdfeditorworkspace/page.tsx:213-220 | the record built at mouse-up fits the store (first point as x/y, a colour exactly when the tool is highlight), carries the given id, the tool as its type and the whole stroke as its points, and under highlight the chosen colour |
| `Annotations.CommitWellFormed` | app/pdfeditor/pdfeditorworkspace/page.tsx:222-225 | committing a well-formed annotation keeps every stored annotation well-formed |
| `Annotations.ClearWellFormed` | app/pdfeditor/pdfeditorworkspace/page.tsx:412 | clearing a page keeps every remaining stored annotation well-formed |
| `Annotations.StyleFor` | app/pdfeditor/pdfeditorworkspace/page.tsx:196-202 | highlight is the chosen colour at width 20 and alpha 0.3; pen is `#000000` at width 2 and alpha 1; any other tool is `#ffffff` at width 10 and alpha 1; only highlight is translucent |
| `Annotations.ReplayStyleMatchesLive` | app/pdfeditor/pdfeditorworkspace/page.tsx:278-284 | a stored annotation is replayed in the style it was drawn in live with the same tool and colour |
| `Annotations.Segments` | app/pdfeditor/pdfeditorworkspace/page.tsx:204-207 | the pieces of a stroke are exactly its consecutive pairs of points, one fewer than the points |
| `Annotations.SegmentsSnoc` | app/pdfeditor/pdfeditorworkspace/page.tsx:190-207 | appending a point adds exactly the piece from the previous point to it, which is what mouse-move paints |
| `Annotations.Replay` | app/pdfeditor/pdfeditorworkspace/page.tsx:275-294 | the redraw paints only paths of more than one point, each the drawing of one of the page's annotations, and paints every annotation with more than one point; the exact order is `ReplayIsFilterThenDraw` |
| `Annotations.ReplaySnoc` | app/pdfeditor/pdfeditorworkspace/page.tsx:275-277 | a new annotation is painted last, after all earlier ones in order, or not at all when it has a single point |
| `Annotations.ReplayIsFilterThenDraw` | app/pdfeditor/pdfeditorworkspace/page.tsx:276-277 | the redraw loop equals keeping the annotations with more than one point and drawing each in insertion order |
| `Seqs.Filter` | app/pdfeditor/pdfeditorworkspace/page.tsx:239 | the filter keeps exactly the elements satisfying the predicate, never more elements than the input |
| `TextBoxes.Rename` | app/pdfeditor/pdfeditorworkspace/page.tsx:232-236 | the edit keeps length and order and every field but text; text becomes the new text exactly on boxes whose id matches |
| `TextBoxes.Remove` | app/pdfeditor/pdfeditorworkspace/page.tsx:238-239 | no remaining box carries the id, every remaining box was there before, and every box with another id remains |
| `TextBoxes.OnPage` | app/pdfeditor/pdfeditorworkspace/page.tsx:496-497 | the displayed boxes are exactly those anchored to the page |
| `TextBoxes.PlaceOnPage` | app/pdfeditor/pdfeditorworkspace/page.tsx:161 | a placed box appears last on its own page and changes no other page's view |
| `TextBoxes.RenameOnPage` | app/pdfeditor/pdfeditorworkspace/page.tsx:232-236 | editing commutes with the page filter: the displayed boxes after an edit are the edited displayed boxes |
| `TextBoxes.RemoveOnPage` | app/pdfeditor/pdfeditorworkspace/page.tsx:238-239 | deleting commutes with the page filter |
| `TextBoxes.RemoveConcat` | app/pdfeditor/pdfeditorworkspace/page.tsx:239 | deletion keeps the survivors in order: it acts piecewise on any split of the list |
| `TextBoxes.RemoveCount` | app/pdfeditor/pdfeditorworkspace/page.tsx:238-239 | deletion removes exactly as many boxes as carry the id |
| `TextBoxes.RemoveAbsent` | app/pdfeditor/pdfeditorworkspace/page.tsx:239 | deleting an id no box carries changes nothing |
| `TextBoxes.NewTextBox` | app/pdfeditor/pdfeditorworkspace/page.tsx:151-159 | a new box sits at the click on the given page with the given id, holds the placeholder, and has font size 16 and colour `#000000` |
| `TextBoxes.PlaceKeepsDefaults` | app/pdfeditor/pdfeditorworkspace/page.tsx:151-161 | placing a new box keeps font size 16 and colour `#000000` on every box |
| `TextBoxes.RenameKeepsDefaults` | app/pdfeditor/pdfeditorworkspace/page.tsx:232-236 | an edit keeps font size 16 and colour `#000000` on every box |
| `TextBoxes.RemoveKeepsDefaults` | app/pdfeditor/pdfeditorworkspace/page.tsx:238-239 | a deletion keeps font size 16 and colour `#000000` on every remaining box |
| `TextBoxes.PlaceKeepsDistinct` | app/pdfeditor/pdfeditorworkspace/page.tsx:151-161 | a box placed with an id no box carries keeps the ids distinct |
| `TextBoxes.RenameKeepsDistinct` | app/pdfeditor/pdfeditorworkspace/page.tsx:232-236 | an edit keeps the ids distinct |
| `TextBoxes.RemoveKeepsDistinct` | app/pdfeditor/pdfeditorworkspace/page.tsx:238-239 | a deletion keeps the ids distinct |
| `Workspace.PdfEditorWorkspace.constructor` | app/pdfeditor/pdfeditorworkspace/page.tsx:39-49 | the initial state: no pages, page 1, zoom 1.5, select tool, yellow, no strokes, no boxes, nothing being edited |
| `Workspace.PdfEditorWorkspace.OnDocumentLoadSuccess` | app/pdfeditor/pdfeditorworkspace/page.tsx:120-123 | records the page count and shows page 1; nothing else changes but the redraw, when the page moves |
| `Workspace.PdfEditorWorkspace.HandlePreviousPage` | app/pdfeditor/pdfeditorworkspace/page.tsx:125-127 | only the current page changes, by the clamped step; strokes and boxes are untouched; a page that moves triggers the redraw |
| `Workspace.PdfEditorWorkspace.HandleNextPage` | app/pdfeditor/pdfeditorworkspace/page.tsx:129-131 | only the current page changes, by the clamped step; strokes and boxes are untouched; a page that moves triggers the redraw |
| `Workspace.PdfEditorWorkspace.GoToPage` | app/pdfeditor/pdfeditorworkspace/page.tsx:441 | a thumbnail click sets only the current page; a page that moves triggers the redraw |
| `Workspace.PdfEditorWorkspace.HandleZoomIn` | app/pdfeditor/pdfeditorworkspace/page.tsx:133-135 | only the zoom changes, by the clamped step; when it changes, the resized canvas no longer shows the committed strokes |
| `Workspace.PdfEditorWorkspace.HandleZoomOut` | app/pdfeditor/pdfeditorworkspace/page.tsx:137-139 | only the zoom changes, by the clamped step; when it changes, the resized canvas no longer shows the committed strokes |
| `Workspace.PdfEditorWorkspace.SelectTool` | app/pdfeditor/pdfeditorworkspace/page.tsx:339-407 | a tool button sets only the tool; the highlight colour is kept |
| `Workspace.PdfEditorWorkspace.SelectHighlightColor` | app/pdfeditor/pdfeditorworkspace/page.tsx:363-366 | a palette swatch sets only the highlight colour |
| `Workspace.PdfEditorWorkspace.HandlePdfClick` | app/pdfeditor/pdfeditorworkspace/page.tsx:141-164 | under the edit tool only, a box with the placeholder, size 16, black, on the current page is appended, is shown last on that page and becomes the one being edited; otherwise nothing changes |
| `Workspace.PdfEditorWorkspace.HandleMouseDown` | app/pdfeditor/pdfeditorworkspace/page.tsx:166-178 | under select or edit nothing changes; otherwise drawing starts with a stroke of exactly the pressed point |
| `Workspace.PdfEditorWorkspace.HandleMouseMove` | app/pdfeditor/pdfeditorworkspace/page.tsx:180-209 | only while drawing under a drawing tool, exactly one point is appended and the piece from the previous point is painted in the live style; otherwise nothing changes and nothing is painted |
| `Workspace.PdfEditorWorkspace.HandleMouseUp` | app/pdfeditor/pdfeditorworkspace/page.tsx:211-230 | while drawing, exactly one annotation of the tool, colour and stroke is appended to the current page (other pages untouched), its live pieces are the pieces of its points, and the redraw gains it unless it has one point; drawing stops and the stroke empties in every case |
| `Workspace.PdfEditorWorkspace.HandleTextBoxChange` | app/pdfeditor/pdfeditorworkspace/page.tsx:232-236 | the boxes become their edit, and so do the displayed boxes |
| `Workspace.PdfEditorWorkspace.HandleDeleteTextBox` | app/pdfeditor/pdfeditorworkspace/page.tsx:238-243 | the boxes with the id go from the list and from the display; the editing marker is cleared only if it named that id |
| `Workspace.PdfEditorWorkspace.ClickTextBox` | app/pdfeditor/pdfeditorworkspace/page.tsx:508-511 | the clicked box becomes the one being edited, with no commit of the previous one |
| `Workspace.PdfEditorWorkspace.BlurTextBox` | app/pdfeditor/pdfeditorworkspace/page.tsx:516-519 | the box's text is rewritten with the displayed text and no box is being edited afterwards |
| `Workspace.PdfEditorWorkspace.ClearCurrentPage` | app/pdfeditor/pdfeditorworkspace/page.tsx:412 | only the current page's strokes are emptied, and the redraw paints nothing |
| `Workspace.PdfEditorWorkspace.HandleGoBack` | app/pdfeditor/pdfeditorworkspace/page.tsx:250-255 | every page's strokes are discarded |
| `Workspace.PdfEditorWorkspace.DisplayedBoxes` | app/pdfeditor/pdfeditorworkspace/page.tsx:496-497 | the boxes rendered are exactly the boxes of the current page |
| `Workspace.PdfEditorWorkspace.CanvasStrokes` | app/pdfeditor/pdfeditorworkspace/page.tsx:275-294 | the redraw paints the current page's annotations with more than one point, each drawn in its replay style, in commit order |
| `Workspace.AtMostOneEditable` | app/pdfeditor/pdfeditorworkspace/page.tsx:514 | while the boxes carry distinct ids, at most one of them is rendered editable |
| `Upload.Check` | app/pdfeditor/page.tsx:14-31 | a file passes exactly when its type is `application/pdf` and its size is at most 52,428,800 bytes; a non-PDF gets "Please upload a PDF file" whatever its size; a PDF over the limit gets "File size must be less than 50MB"; no other message occurs |
| `Upload.TypeCheckedFirst` | app/pdfeditor/page.tsx:16-28 | an oversized non-PDF gets the type message |
| `Upload.SizeLimitBoundary` | app/pdfeditor/page.tsx:22-30 | the limit is 52,428,800 bytes and inclusive: that size passes, one byte more is rejected with the size message |
| `Upload.PdfEditor.constructor` | app/pdfeditor/page.tsx:7-10 | no file, not dragging, status idle, empty message |
| `Upload.PdfEditor.ValidatePdfFile` | app/pdfeditor/page.tsx:14-31 | answers whether the check passes; on rejection sets the check's message and status error; on acceptance changes nothing |
| `Upload.PdfEditor.HandleFileSelect` | app/pdfeditor/page.tsx:33-41 | a good file is selected with status success and an empty message; a bad one keeps the previous selection and sets status error and the check's message |
| `Upload.PdfEditor.HandleFileInputChange` | app/pdfeditor/page.tsx:43-48 | the chosen file, if any, takes the file-select path; no file changes nothing |
| `Upload.PdfEditor.HandleDragOver` | app/pdfeditor/page.tsx:50-53 | the drag highlight is on |
| `Upload.PdfEditor.HandleDragLeave` | app/pdfeditor/page.tsx:55-58 | the drag highlight is off |
| `Upload.PdfEditor.HandleDrop` | app/pdfeditor/page.tsx:60-68 | the drag highlight is off, and the dropped file, if any, takes the same path as the file input |
| `Upload.PdfEditor.HandleRemoveFile` | app/pdfeditor/page.tsx:87-94 | no file, status idle, empty message |
| `Upload.PdfEditor.HandleOpenEditor` | app/pdfeditor/page.tsx:74-85 | a file is handed to the editor exactly when one is selected, and it is that file, which passed the check |
| `Upload.ActionsOnlyForCheckedFile` | app/pdfeditor/page.tsx:204 | whenever the action buttons are shown, the selected file is a PDF within the limit and no error is shown |
| `Scenarios.DrawYellowHighlight` | app/pdfeditor/pdfeditorworkspace/page.tsx:166-230 | a yellow highlight drag from (10,10) to (50,10) on page 1 stores exactly one annotation, of type highlight, colour yellow, with both points |
| `Scenarios.NextPageAndBack` | app/pdfeditor/pdfeditorworkspace/page.tsx:125-131 | next page then previous page restores the page and leaves the zoom, the strokes, the boxes, the painted strokes and the shown boxes identical, with the canvas redrawn |
| `Scenarios.ZoomThenNavigate` | app/pdfeditor/pdfeditorworkspace/page.tsx:297-299 | after a zoom in the canvas shows no committed strokes; a visit to the next page and back shows the same strokes as before the zoom |
| `Scenarios.TapEraser` | app/pdfeditor/pdfeditorworkspace/page.tsx:211-225 | a press and release at one point under the eraser stores exactly one annotation, of that single point, on the current page |
| `Scenarios.ClickWithoutDrag` | app/pdfeditor/pdfeditorworkspace/page.tsx:141-164 | after a press and release without movement, one single-point annotation is stored, the canvas shows nothing, and the click that follows places no box under the eraser |

## Left out

- Canvas painting (`getContext`, `beginPath`, `lineTo`, `stroke`, `clearRect`) is browser graphics. The model says which piece each mouse-move paints, which annotations the redraw paints, in what order and in what style.
- Workspace.PdfEditorWorkspace.HandleMouseMove: the source paints only when the stroke so far is non-empty. The invariant makes that always true while drawing, so the model does not test it again.
- The missing-canvas and missing-container early returns (`if (!canvas) return`) are left out. The elements are always mounted while the handlers can fire.
- The editable text layer (lines 66-118 of the workspace) is left out. It is DOM mutation over spans owned by the PDF renderer, with a timer, event listeners and a random fallback key. Its rule that an edit is recorded only when the new text differs from the original is not modelled.
- PDF rendering and page thumbnails are done by an external library and are left out; only the page count it reports enters the model.
- The document handoff through session storage, the file reader and the router navigation are browser I/O. So are the `pdfFile` field and its clearing by the go-back handler; only the go-back handler's reset of the strokes is modelled.
- The reset of the file input's value by the remove-file handler (lines 91-93 of
  the upload screen) is DOM and is not modelled; `HandleRemoveFile` models the
  state it clears.
- The download handler is a stub that shows an alert and is left out.
- The Enter key on a box only triggers its blur, which `BlurTextBox` models.
- The `width`, `height` and `text` fields of the annotation type are never set by the workspace and are left out.
- Screen-coordinate arithmetic (`clientX - rect.left`) is left out; the handlers take the resulting point.
- The `uploading` status is in the type but no handler sets it; the invariant records that it is never reached.
- React's render closures are not modelled: each handler here sees the state left
  by the previous one. In the source, `handleMouseMove` reads the `isDrawing`
  (line 181) and `currentDrawing` (lines 194-195) of the last render, and
  `handleMouseUp` reads both (line 212). An event that arrives before a re-render
  sees stale values: such a move paints from an outdated last point, and such a
  release can commit a stroke missing its latest points. React's batching of
  state updates is not modelled either.
- Live pieces painted while drawing are not tracked by `ShownStrokes`; a zoom or a
  redraw erases them as well.
- The admin dashboard, analytics, the hosted-database client and the static page components are network glue or markup and are not part of this model.
