/**
 * Page navigation and zoom of the annotation workspace, as pure transitions.
 *
 * The source keeps the zoom as a floating-point factor that starts at 1.5 and
 * moves in steps of 0.25 within [0.5, 3]. Every reachable value is a whole
 * number of quarters, so the model keeps that number of quarters exactly.
 */
module Viewport {

  /** The page shown before a document is loaded, and after each load. */
  const FirstPage: int := 1

  /** Zoom, in quarters: 1.5 = 6/4, 0.5 = 2/4, 3 = 12/4. */
  const InitialQuarters: int := 6
  const MinQuarters: int := 2
  const MaxQuarters: int := 12

  /** The factor the source stores for a count of quarters. */
  function ScaleFactor(quarters: int): real
  {
    quarters as real / 4.0
  }

  /** The range the navigation keeps: before a document has reported its
      page count (`numPages` still 0) any page is admitted. */
  predicate PageInRange(page: int, numPages: nat)
  {
    numPages == 0 || 1 <= page <= numPages
  }

  /** `Math.max(prev - 1, 1)`. */
  function PreviousPage(page: int): (r: int)
    ensures r >= 1
    ensures page > 1 ==> r == page - 1
    ensures page <= 1 ==> r == 1
  {
    if page - 1 > 1 then page - 1 else 1
  }

  /** `Math.min(prev + 1, numPages)`. */
  function NextPage(page: int, numPages: nat): (r: int)
    ensures r <= numPages
    ensures page < numPages ==> r == page + 1
    ensures page >= numPages ==> r == numPages
  {
    if page + 1 < numPages then page + 1 else numPages
  }

  /** `Math.min(prev + 0.25, 3)`, in quarters. */
  function ZoomIn(quarters: int): (r: int)
    ensures r <= MaxQuarters
    ensures quarters < MaxQuarters ==> r == quarters + 1
    ensures quarters >= MaxQuarters ==> r == MaxQuarters
  {
    if quarters + 1 < MaxQuarters then quarters + 1 else MaxQuarters
  }

  /** `Math.max(prev - 0.25, 0.5)`, in quarters. */
  function ZoomOut(quarters: int): (r: int)
    ensures r >= MinQuarters
    ensures quarters > MinQuarters ==> r == quarters - 1
    ensures quarters <= MinQuarters ==> r == MinQuarters
  {
    if quarters - 1 > MinQuarters then quarters - 1 else MinQuarters
  }

  /** The quarter counts are the source's factors 1.5, 0.5 and 3, and one step is 0.25. */
  lemma ScaleConstants(q: int)
    ensures ScaleFactor(InitialQuarters) == 1.5
    ensures ScaleFactor(MinQuarters) == 0.5
    ensures ScaleFactor(MaxQuarters) == 3.0
    ensures ScaleFactor(q + 1) == ScaleFactor(q) + 0.25
  {
  }

  /** Both page buttons keep a page that is in range in range. */
  lemma NavigationStaysInRange(page: int, numPages: nat)
    requires PageInRange(page, numPages)
    ensures PageInRange(PreviousPage(page), numPages)
    ensures PageInRange(NextPage(page, numPages), numPages)
  {
  }

  /** Next then previous returns to the page one started from, unless it was the last. */
  lemma NextThenPrevious(page: int, numPages: nat)
    requires 1 <= page < numPages
    ensures PreviousPage(NextPage(page, numPages)) == page
  {
  }

  /** Previous then next returns to the page one started from, unless it was the first. */
  lemma PreviousThenNext(page: int, numPages: nat)
    requires 1 < page <= numPages
    ensures NextPage(PreviousPage(page), numPages) == page
  {
  }

  /** Zoom keeps the factor within [0.5, 3]. */
  lemma ZoomStaysInRange(quarters: int)
    requires MinQuarters <= quarters <= MaxQuarters
    ensures MinQuarters <= ZoomIn(quarters) <= MaxQuarters
    ensures MinQuarters <= ZoomOut(quarters) <= MaxQuarters
  {
  }

  /** Zoom out undoes zoom in, unless zoom in was already at the maximum. */
  lemma ZoomInThenOut(quarters: int)
    requires MinQuarters <= quarters < MaxQuarters
    ensures ZoomOut(ZoomIn(quarters)) == quarters
  {
  }

  /** Zoom in undoes zoom out, unless zoom out was already at the minimum. */
  lemma ZoomOutThenIn(quarters: int)
    requires MinQuarters < quarters <= MaxQuarters
    ensures ZoomIn(ZoomOut(quarters)) == quarters
  {
  }
}
