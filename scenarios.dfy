/**
 * Clients of the two components: user sessions written as sequences of
 * handler calls, with what each session leaves behind asserted from the
 * handlers' contracts alone.
 */
module Scenarios {
  import opened Wrappers
  import opened Viewport
  import opened Annotations
  import opened TextBoxes
  import opened Workspace
  import opened Upload

  /** The gesture of the highlight scenario: press at (10,10), move to (50,10), release. */
  method DrawYellowHighlight(w: PdfEditorWorkspace) returns (stroke: Annotation)
    requires w.Valid() && w.currentPage == 1 && w.annotations == map[]
    modifies w
    ensures w.Valid() && w.currentPage == old(w.currentPage) && w.numPages == old(w.numPages)
    ensures stroke == Annotation("t1", Highlight, Some(Yellow), 10.0, 10.0, [Point(10.0, 10.0), Point(50.0, 10.0)])
    ensures w.annotations == Commit(map[], 1, stroke)
  {
    w.SelectTool(Highlight);
    w.SelectHighlightColor(Yellow);
    w.HandleMouseDown(Point(10.0, 10.0));
    var painted := w.HandleMouseMove(Point(50.0, 10.0));
    assert painted == Some(LiveDraw(Segment(Point(10.0, 10.0), Point(50.0, 10.0)), LiveStyle(Highlight, Yellow)));
    assert LiveStyle(Highlight, Yellow) == StrokeStyle("yellow", 20, 0.3);
    var points := [Point(10.0, 10.0), Point(50.0, 10.0)];
    assert w.currentDrawing == points;
    w.HandleMouseUp("t1");
    stroke := NewAnnotation("t1", Highlight, Yellow, points);
  }

  /** Going to the next page and back restores the page and leaves the strokes,
      the boxes, and what is painted and shown on the page exactly as they were. */
  method NextPageAndBack(w: PdfEditorWorkspace)
    requires w.Valid() && 1 <= w.currentPage < w.numPages
    modifies w
    ensures w.Valid() && w.currentPage == old(w.currentPage) && w.scale == old(w.scale)
    ensures w.annotations == old(w.annotations) && w.textBoxes == old(w.textBoxes)
    ensures w.CanvasStrokes() == old(w.CanvasStrokes()) && w.DisplayedBoxes() == old(w.DisplayedBoxes())
    ensures w.replayShown
  {
    w.HandleNextPage();
    w.HandlePreviousPage();
    NextThenPrevious(old(w.currentPage), w.numPages);
  }

  /** Zooming in resizes the canvas and so erases the strokes it shows; they come
      back only with the next redraw, here a visit to the next page and back. */
  method ZoomThenNavigate(w: PdfEditorWorkspace)
    requires w.Valid() && w.scale < MaxQuarters && 1 <= w.currentPage < w.numPages
    modifies w
    ensures w.Valid() && w.scale == old(w.scale) + 1
    ensures w.ShownStrokes() == w.CanvasStrokes() == old(w.CanvasStrokes())
  {
    w.HandleZoomIn();
    assert w.ShownStrokes() == [];
    NextPageAndBack(w);
  }

  /** A yellow highlight from (10,10) to (50,10) on page 1 survives a visit to page 2. */
  method HighlightSurvivesNavigation()
  {
    var w := new PdfEditorWorkspace();
    w.OnDocumentLoadSuccess(2);
    var stroke := DrawYellowHighlight(w);
    assert PageAnnotations(w.annotations, 1) == [stroke];
    assert w.CanvasStrokes() == Replay([stroke]) == [Draw(stroke)];

    w.HandleNextPage();
    assert w.currentPage == 2;
    assert w.CanvasStrokes() == [];
    w.HandlePreviousPage();
    assert w.currentPage == 1;
    assert PageAnnotations(w.annotations, 1) == [stroke];
    assert PageAnnotations(w.annotations, 2) == [];
  }

  /** A box placed at (100,200) on page 1 and edited to "Hello" is hidden on
      page 2 and shown again, unchanged, on page 1. */
  method TextBoxFollowsItsPage()
  {
    var w := new PdfEditorWorkspace();
    w.OnDocumentLoadSuccess(2);
    w.SelectTool(Edit);
    w.HandlePdfClick("t1", Point(100.0, 200.0));
    assert w.editingTextBoxId == Some("t1");
    w.BlurTextBox("t1", "Hello");
    assert w.editingTextBoxId == None;
    var box := TextBox("t1", 100.0, 200.0, "Hello", 16, "#000000", 1);
    assert w.textBoxes == [box];

    w.HandleNextPage();
    assert w.DisplayedBoxes() == [] by {
      assert w.textBoxes[0].pageNumber != w.currentPage;
    }
    w.HandlePreviousPage();
    assert box in w.DisplayedBoxes();
  }

  /** The gesture of the click scenario: press and release at (5,5) under the eraser. */
  method TapEraser(w: PdfEditorWorkspace) returns (stroke: Annotation)
    requires w.Valid() && w.annotations == map[] && w.selectedTool == Eraser
    modifies w
    ensures w.Valid() && w.textBoxes == old(w.textBoxes) && w.selectedTool == Eraser && w.replayShown
    ensures stroke.points == [Point(5.0, 5.0)]
    ensures w.annotations == Commit(map[], w.currentPage, stroke)
  {
    w.HandleMouseDown(Point(5.0, 5.0));
    stroke := NewAnnotation("t1", Eraser, Yellow, w.currentDrawing);
    w.HandleMouseUp("t1");
  }

  /** A press and release without movement under the eraser stores a stroke of
      one point, which the redraw never paints; the click that follows the
      release places no text box. */
  method ClickWithoutDrag(w: PdfEditorWorkspace)
    requires w.Valid() && w.annotations == map[] && w.textBoxes == [] && w.selectedTool == Eraser
    modifies w
    ensures w.Valid() && w.textBoxes == []
    ensures |PageAnnotations(w.annotations, w.currentPage)| == 1
    ensures PageAnnotations(w.annotations, w.currentPage)[0].points == [Point(5.0, 5.0)]
    ensures w.ShownStrokes() == []
  {
    var stroke := TapEraser(w);
    assert Replay([stroke]) == [];
    w.HandlePdfClick("t2", Point(5.0, 5.0));
  }

  /** Deleting the box being edited ends the editing; deleting another box does not. */
  method DeleteWhileEditing()
  {
    var w := new PdfEditorWorkspace();
    w.OnDocumentLoadSuccess(1);
    w.SelectTool(Edit);
    w.HandlePdfClick("a", Point(1.0, 1.0));
    w.HandlePdfClick("b", Point(2.0, 2.0));
    assert w.editingTextBoxId == Some("b");
    w.HandleDeleteTextBox("a");
    assert w.editingTextBoxId == Some("b");
    w.HandleDeleteTextBox("b");
    assert w.editingTextBoxId == None;
  }

  /** An oversized PDF after a good one: the good one stays selected, but the
      actions are withdrawn until another good file or a removal. */
  method RejectedFileKeepsSelection()
  {
    var page := new PdfEditor();
    var good := PdfFile(PdfMimeType, 1000, "a.pdf");
    var big := PdfFile(PdfMimeType, MaxSize + 1, "b.pdf");
    page.HandleDragOver();
    page.HandleDrop(Some(good));
    assert !page.isDragging && page.ActionsVisible();
    page.HandleFileInputChange(Some(big));
    assert page.selectedFile == Some(good);
    assert page.errorMessage == TooLargeMessage && !page.ActionsVisible();
    var handoff := page.HandleOpenEditor();
    assert handoff == Some(good);
    page.HandleRemoveFile();
    handoff := page.HandleOpenEditor();
    assert handoff == None;
  }
}
