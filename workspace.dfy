/**
 * The annotation workspace component: its state fields and the event handlers
 * that move them. Each handler is a method that changes only the fields its
 * `modifies` clause names and states the new value of each in terms of the
 * old state; `Valid` is the invariant every handler keeps.
 */
module Workspace {
  import opened Wrappers
  import opened Viewport
  import opened Annotations
  import opened TextBoxes
  import Seqs

  class PdfEditorWorkspace {
    var numPages: nat
    var currentPage: int
    /** The zoom factor, as a count of quarters. */
    var scale: int
    var selectedTool: Tool
    var highlightColor: HighlightColor
    var annotations: Store
    var isDrawing: bool
    var currentDrawing: seq<Point>
    var textBoxes: seq<TextBox>
    var editingTextBoxId: Option<string>
    /** The pieces the canvas has painted live since the last mouse-down. */
    ghost var liveSegments: seq<Segment>
    /** Whether the canvas shows the current page's committed strokes. The redraw
        effect sets it when the page or the store changes; a zoom that changes the
        factor resizes the canvas, which erases it, and the redraw does not follow. */
    ghost var replayShown: bool

    ghost predicate Valid()
      reads this
    {
      && PageInRange(currentPage, numPages)
      && MinQuarters <= scale <= MaxQuarters
      && (isDrawing <==> currentDrawing != [])
      && liveSegments == Segments(currentDrawing)
      && StoreWellFormed(annotations)
      && AllDefaults(textBoxes)
    }

    /** The state on mount, before the document reports its page count. */
    constructor ()
      ensures Valid()
      ensures numPages == 0 && currentPage == FirstPage && scale == InitialQuarters
      ensures selectedTool == Select && highlightColor == Yellow
      ensures annotations == map[] && !isDrawing && currentDrawing == []
      ensures textBoxes == [] && editingTextBoxId == None
      ensures ShownStrokes() == []
    {
      numPages := 0;
      currentPage := FirstPage;
      scale := InitialQuarters;
      selectedTool := Select;
      highlightColor := Yellow;
      annotations := map[];
      isDrawing := false;
      currentDrawing := [];
      textBoxes := [];
      editingTextBoxId := None;
      liveSegments := [];
      replayShown := true;
    }

    /** `onDocumentLoadSuccess`: record the page count and show the first page. */
    method OnDocumentLoadSuccess(pages: nat)
      requires Valid()
      modifies this`numPages, this`currentPage, this`replayShown
      ensures Valid()
      ensures numPages == pages && currentPage == FirstPage
      ensures replayShown == (old(replayShown) || old(currentPage) != FirstPage)
    {
      numPages := pages;
      replayShown := replayShown || currentPage != FirstPage;
      currentPage := FirstPage;
    }

    /** `handlePreviousPage`: one page back, never below page 1. */
    method HandlePreviousPage()
      requires Valid()
      modifies this`currentPage, this`replayShown
      ensures Valid()
      ensures currentPage == PreviousPage(old(currentPage))
      ensures replayShown == (old(replayShown) || currentPage != old(currentPage))
    {
      NavigationStaysInRange(currentPage, numPages);
      replayShown := replayShown || PreviousPage(currentPage) != currentPage;
      currentPage := PreviousPage(currentPage);
    }

    /** `handleNextPage`: one page forward, never beyond `numPages`. */
    method HandleNextPage()
      requires Valid()
      modifies this`currentPage, this`replayShown
      ensures Valid()
      ensures currentPage == NextPage(old(currentPage), numPages)
      ensures replayShown == (old(replayShown) || currentPage != old(currentPage))
    {
      NavigationStaysInRange(currentPage, numPages);
      replayShown := replayShown || NextPage(currentPage, numPages) != currentPage;
      currentPage := NextPage(currentPage, numPages);
    }

    /** A click on a page thumbnail; thumbnails exist for pages 1 to `numPages` only. */
    method GoToPage(page: int)
      requires Valid()
      requires 1 <= page <= numPages
      modifies this`currentPage, this`replayShown
      ensures Valid()
      ensures currentPage == page
      ensures replayShown == (old(replayShown) || page != old(currentPage))
    {
      replayShown := replayShown || page != currentPage;
      currentPage := page;
    }

    /** `handleZoomIn`: a quarter up, at most 3. */
    method HandleZoomIn()
      requires Valid()
      modifies this`scale, this`replayShown
      ensures Valid()
      ensures scale == ZoomIn(old(scale))
      ensures replayShown == (old(replayShown) && scale == old(scale))
    {
      replayShown := replayShown && ZoomIn(scale) == scale;
      scale := ZoomIn(scale);
    }

    /** `handleZoomOut`: a quarter down, at least 0.5. */
    method HandleZoomOut()
      requires Valid()
      modifies this`scale, this`replayShown
      ensures Valid()
      ensures scale == ZoomOut(old(scale))
      ensures replayShown == (old(replayShown) && scale == old(scale))
    {
      replayShown := replayShown && ZoomOut(scale) == scale;
      scale := ZoomOut(scale);
    }

    /** A toolbar button; a stroke in progress is left as it is. */
    method SelectTool(tool: Tool)
      requires Valid()
      modifies this`selectedTool
      ensures Valid()
      ensures selectedTool == tool
    {
      selectedTool := tool;
    }

    /** A swatch of the highlight palette. */
    method SelectHighlightColor(color: HighlightColor)
      requires Valid()
      modifies this`highlightColor
      ensures Valid()
      ensures highlightColor == color
    {
      highlightColor := color;
    }

    /** `handlePdfClick`: under the edit tool, a new box at the click point on the
        current page goes to the end of the list and is the one being edited;
        under any other tool nothing happens. `id` is the caller's timestamp. */
    method HandlePdfClick(id: string, at: Point)
      requires Valid()
      modifies this`textBoxes, this`editingTextBoxId
      ensures Valid()
      ensures selectedTool == Edit ==>
        && textBoxes == old(textBoxes) + [NewTextBox(id, at.x, at.y, currentPage)]
        && editingTextBoxId == Some(id)
        && DisplayedBoxes() == old(DisplayedBoxes()) + [NewTextBox(id, at.x, at.y, currentPage)]
      ensures selectedTool != Edit ==>
        textBoxes == old(textBoxes) && editingTextBoxId == old(editingTextBoxId)
    {
      if selectedTool == Edit {
        PlaceKeepsDefaults(textBoxes, id, at.x, at.y, currentPage);
        PlaceOnPage(textBoxes, NewTextBox(id, at.x, at.y, currentPage), currentPage);
        textBoxes := textBoxes + [NewTextBox(id, at.x, at.y, currentPage)];
        editingTextBoxId := Some(id);
      }
    }

    /** `handleMouseDown`: under a drawing tool, start a stroke of exactly the
        pressed point (a stroke already in progress is dropped). */
    method HandleMouseDown(at: Point)
      requires Valid()
      modifies this`isDrawing, this`currentDrawing, this`liveSegments
      ensures Valid()
      ensures Draws(selectedTool) ==> isDrawing && currentDrawing == [at] && liveSegments == []
      ensures !Draws(selectedTool) ==>
        isDrawing == old(isDrawing) && currentDrawing == old(currentDrawing) && liveSegments == old(liveSegments)
    {
      if !Draws(selectedTool) {
        return;
      }
      isDrawing := true;
      currentDrawing := [at];
      liveSegments := [];
    }

    /** `handleMouseMove`: while a stroke is in progress under a drawing tool,
        append the point and paint the piece from the previous point to it in
        the live style; otherwise nothing. */
    method HandleMouseMove(at: Point) returns (painted: Option<LiveDraw>)
      requires Valid()
      modifies this`currentDrawing, this`liveSegments
      ensures Valid()
      ensures old(isDrawing) && Draws(selectedTool) ==>
        && currentDrawing == old(currentDrawing) + [at]
        && painted == Some(LiveDraw(Segment(old(currentDrawing)[|old(currentDrawing)| - 1], at),
                                    LiveStyle(selectedTool, highlightColor)))
      ensures !(old(isDrawing) && Draws(selectedTool)) ==>
        currentDrawing == old(currentDrawing) && liveSegments == old(liveSegments) && painted == None
    {
      if !isDrawing || !Draws(selectedTool) {
        return None;
      }
      // The canvas is painted only when a previous point exists, which a stroke in progress always has.
      var last := currentDrawing[|currentDrawing| - 1];
      SegmentsSnoc(currentDrawing, at);
      currentDrawing := currentDrawing + [at];
      liveSegments := liveSegments + [Segment(last, at)];
      painted := Some(LiveDraw(Segment(last, at), LiveStyle(selectedTool, highlightColor)));
    }

    /** `handleMouseUp` (also the canvas's mouse-leave): a stroke in progress becomes
        one annotation at the end of the current page's list; the stroke in
        progress is cleared in every case. `id` is the caller's timestamp. */
    method HandleMouseUp(id: string)
      requires Valid()
      modifies this`annotations, this`isDrawing, this`currentDrawing, this`liveSegments, this`replayShown
      ensures Valid()
      ensures !isDrawing && currentDrawing == [] && liveSegments == []
      ensures old(isDrawing) ==>
        annotations == Commit(old(annotations), currentPage,
                              NewAnnotation(id, selectedTool, highlightColor, old(currentDrawing)))
      ensures old(isDrawing) ==> Segments(old(currentDrawing)) == old(liveSegments)
      ensures old(isDrawing) ==>
        CanvasStrokes() == old(CanvasStrokes()) +
          (if |old(currentDrawing)| > 1
           then [Draw(NewAnnotation(id, selectedTool, highlightColor, old(currentDrawing)))] else [])
      ensures old(isDrawing) ==> replayShown
      ensures !old(isDrawing) ==> annotations == old(annotations) && replayShown == old(replayShown)
    {
      if isDrawing && |currentDrawing| > 0 {
        var a := NewAnnotation(id, selectedTool, highlightColor, currentDrawing);
        CommitWellFormed(annotations, currentPage, a);
        ReplaySnoc(PageAnnotations(annotations, currentPage), a);
        annotations := Commit(annotations, currentPage, a);
        replayShown := true;
      }
      isDrawing := false;
      currentDrawing := [];
      liveSegments := [];
    }

    /** `handleTextBoxChange`: rewrite the text of the boxes carrying `id`. */
    method HandleTextBoxChange(id: string, text: string)
      requires Valid()
      modifies this`textBoxes
      ensures Valid()
      ensures textBoxes == Rename(old(textBoxes), id, text)
      ensures DisplayedBoxes() == Rename(old(DisplayedBoxes()), id, text)
    {
      RenameKeepsDefaults(textBoxes, id, text);
      RenameOnPage(textBoxes, id, text, currentPage);
      textBoxes := Rename(textBoxes, id, text);
    }

    /** `handleDeleteTextBox`: drop the boxes carrying `id`; stop editing only if it was that box. */
    method HandleDeleteTextBox(id: string)
      requires Valid()
      modifies this`textBoxes, this`editingTextBoxId
      ensures Valid()
      ensures textBoxes == Remove(old(textBoxes), id)
      ensures DisplayedBoxes() == Remove(old(DisplayedBoxes()), id)
      ensures editingTextBoxId == if old(editingTextBoxId) == Some(id) then None else old(editingTextBoxId)
    {
      RemoveKeepsDefaults(textBoxes, id);
      RemoveOnPage(textBoxes, id, currentPage);
      textBoxes := Remove(textBoxes, id);
      if editingTextBoxId == Some(id) {
        editingTextBoxId := None;
      }
    }

    /** A click on a box: it becomes the one being edited, without committing the previous one. */
    method ClickTextBox(id: string)
      requires Valid()
      modifies this`editingTextBoxId
      ensures Valid()
      ensures editingTextBoxId == Some(id)
    {
      editingTextBoxId := Some(id);
    }

    /** Leaving a box: store its displayed text, and no box is being edited. */
    method BlurTextBox(id: string, text: string)
      requires Valid()
      modifies this`textBoxes, this`editingTextBoxId
      ensures Valid()
      ensures textBoxes == Rename(old(textBoxes), id, text)
      ensures editingTextBoxId == None
    {
      HandleTextBoxChange(id, text);
      editingTextBoxId := None;
    }

    /** The clear button: empty the current page's strokes. */
    method ClearCurrentPage()
      requires Valid()
      modifies this`annotations, this`replayShown
      ensures Valid()
      ensures annotations == ClearPage(old(annotations), currentPage)
      ensures CanvasStrokes() == [] && replayShown
    {
      ClearWellFormed(annotations, currentPage);
      annotations := ClearPage(annotations, currentPage);
      replayShown := true;
    }

    /** `handleGoBack`: every page's strokes are discarded. */
    method HandleGoBack()
      requires Valid()
      modifies this`annotations, this`replayShown
      ensures Valid()
      ensures annotations == map[]
      ensures CanvasStrokes() == [] && replayShown
    {
      annotations := map[];
      replayShown := true;
    }

    /** The text boxes rendered over the current page. */
    function DisplayedBoxes(): (r: seq<TextBox>)
      reads this
      ensures forall i :: 0 <= i < |r| ==> r[i].pageNumber == currentPage && r[i] in textBoxes
      ensures forall i :: 0 <= i < |textBoxes| && textBoxes[i].pageNumber == currentPage ==> textBoxes[i] in r
    {
      OnPage(textBoxes, currentPage)
    }

    /** What the redraw effect paints after the page or the strokes change: the
        current page's strokes with more than one point, each drawn, in commit order. */
    function CanvasStrokes(): (r: seq<Path>)
      reads this
      ensures r == DrawAll(Seqs.Filter(PageAnnotations(annotations, currentPage), MultiPoint()))
      ensures forall i :: 0 <= i < |r| ==> |r[i].points| > 1
    {
      ReplayIsFilterThenDraw(PageAnnotations(annotations, currentPage));
      Replay(PageAnnotations(annotations, currentPage))
    }

    /** The committed strokes the canvas shows: the redraw's strokes, or none once
        a zoom has resized the canvas and no redraw has followed. */
    ghost function ShownStrokes(): seq<Path>
      reads this
    {
      if replayShown then CanvasStrokes() else []
    }

    /** Whether a box is rendered editable (`contentEditable`). */
    predicate IsEditable(box: TextBox)
      reads this
    {
      editingTextBoxId == Some(box.id)
    }
  }

  /** The editing marker is a single id, so while the boxes carry distinct ids
      at most one of them is rendered editable. */
  lemma AtMostOneEditable(w: PdfEditorWorkspace, i: int, j: int)
    requires DistinctIds(w.textBoxes)
    requires 0 <= i < |w.textBoxes| && 0 <= j < |w.textBoxes|
    requires w.IsEditable(w.textBoxes[i]) && w.IsEditable(w.textBoxes[j])
    ensures i == j
  {
  }
}
