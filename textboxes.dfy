/**
 * Floating text boxes of the annotation workspace: one ordered list for the
 * whole document, each box anchored to a page. Edits rewrite text in place,
 * deletion filters by id, and the page view filters by page number.
 */
module TextBoxes {
  import Seqs

  datatype TextBox = TextBox(
    id: string,
    x: real,
    y: real,
    text: string,
    fontSize: nat,
    color: string,
    pageNumber: int)

  /** What a new box holds until it is edited. */
  const Placeholder: string := "Click to edit"
  const DefaultFontSize: nat := 16
  const DefaultColor: string := "#000000"

  /** The box a click on the page creates under the edit tool: it sits at the
      click on the given page, holds the placeholder and has the presentation defaults. */
  function NewTextBox(id: string, x: real, y: real, page: int): (b: TextBox)
    ensures b.id == id && b.x == x && b.y == y && b.pageNumber == page
    ensures b.text == Placeholder
    ensures AllDefaults([b])
  {
    TextBox(id, x, y, Placeholder, DefaultFontSize, DefaultColor, page)
  }

  /** Presentation is fixed at creation: every box keeps the defaults. */
  predicate AllDefaults(boxes: seq<TextBox>)
  {
    forall i :: 0 <= i < |boxes| ==> boxes[i].fontSize == DefaultFontSize && boxes[i].color == DefaultColor
  }

  /** The edit of `handleTextBoxChange`: same boxes in the same order, with the
      text of every box carrying `id` replaced and nothing else touched. */
  function Rename(boxes: seq<TextBox>, id: string, text: string): (r: seq<TextBox>)
    ensures |r| == |boxes|
    ensures forall i :: 0 <= i < |r| ==> r[i] == boxes[i].(text := r[i].text)
    ensures forall i :: 0 <= i < |r| ==> r[i].text == if boxes[i].id == id then text else boxes[i].text
  {
    if boxes == [] then []
    else [if boxes[0].id == id then boxes[0].(text := text) else boxes[0]] + Rename(boxes[1..], id, text)
  }

  /** The deletion filter `box.id !== id`. */
  function OtherId(id: string): TextBox -> bool
  {
    (b: TextBox) => b.id != id
  }

  /** The render filter `box.pageNumber === page`. */
  function OnPageOf(page: int): TextBox -> bool
  {
    (b: TextBox) => b.pageNumber == page
  }

  /** `handleDeleteTextBox`: the boxes without `id`, in their order; no other box goes. */
  function Remove(boxes: seq<TextBox>, id: string): (r: seq<TextBox>)
    ensures forall i :: 0 <= i < |r| ==> r[i].id != id && r[i] in boxes
    ensures forall i :: 0 <= i < |boxes| && boxes[i].id != id ==> boxes[i] in r
  {
    Seqs.Filter(boxes, OtherId(id))
  }

  /** The boxes rendered on `page`: exactly those anchored to it, in list order. */
  function OnPage(boxes: seq<TextBox>, page: int): (r: seq<TextBox>)
    ensures forall i :: 0 <= i < |r| ==> r[i].pageNumber == page && r[i] in boxes
    ensures forall i :: 0 <= i < |boxes| && boxes[i].pageNumber == page ==> boxes[i] in r
  {
    Seqs.Filter(boxes, OnPageOf(page))
  }

  /** Placing a box shows it on its own page, after the boxes already there,
      and changes no other page's view. */
  lemma PlaceOnPage(boxes: seq<TextBox>, box: TextBox, page: int)
    ensures OnPage(boxes + [box], page) ==
            OnPage(boxes, page) + (if box.pageNumber == page then [box] else [])
  {
    Seqs.FilterSnoc(boxes, box, OnPageOf(page));
  }

  /** Editing then looking at a page is looking at the page then editing. */
  lemma {:induction false} RenameOnPage(boxes: seq<TextBox>, id: string, text: string, page: int)
    ensures OnPage(Rename(boxes, id, text), page) == Rename(OnPage(boxes, page), id, text)
  {
    if boxes != [] {
      var r := Rename(boxes, id, text);
      assert r[1..] == Rename(boxes[1..], id, text);
      RenameOnPage(boxes[1..], id, text, page);
      assert OnPageOf(page)(r[0]) == OnPageOf(page)(boxes[0]);
      if boxes[0].pageNumber == page {
        var v := OnPage(boxes, page);
        assert v == [boxes[0]] + OnPage(boxes[1..], page);
        assert v[1..] == OnPage(boxes[1..], page);
      } else {
        assert OnPage(boxes, page) == OnPage(boxes[1..], page);
      }
    }
  }

  /** Deleting then looking at a page is looking at the page then deleting. */
  lemma RemoveOnPage(boxes: seq<TextBox>, id: string, page: int)
    ensures OnPage(Remove(boxes, id), page) == Remove(OnPage(boxes, page), id)
  {
    Seqs.FilterCommute(boxes, OtherId(id), OnPageOf(page));
  }

  /** Deletion keeps the survivors in order: it works piecewise on any split of the list. */
  lemma RemoveConcat(a: seq<TextBox>, b: seq<TextBox>, id: string)
    ensures Remove(a + b, id) == Remove(a, id) + Remove(b, id)
  {
    Seqs.FilterConcat(a, b, OtherId(id));
  }

  /** The boxes carrying `id`, which deletion takes away. */
  function WithId(boxes: seq<TextBox>, id: string): (r: seq<TextBox>)
    ensures forall i :: 0 <= i < |r| ==> r[i].id == id
  {
    var r := Seqs.Filter(boxes, Seqs.Not(OtherId(id)));
    assert forall i :: 0 <= i < |r| ==> Seqs.Not(OtherId(id))(r[i]);
    r
  }

  /** Deletion removes exactly as many boxes as carry `id`. */
  lemma RemoveCount(boxes: seq<TextBox>, id: string)
    ensures |Remove(boxes, id)| + |WithId(boxes, id)| == |boxes|
  {
    Seqs.FilterPartition(boxes, OtherId(id));
  }

  /** Deleting an id that no box carries changes nothing. */
  lemma RemoveAbsent(boxes: seq<TextBox>, id: string)
    requires forall i :: 0 <= i < |boxes| ==> boxes[i].id != id
    ensures Remove(boxes, id) == boxes
  {
    Seqs.FilterAll(boxes, OtherId(id));
  }

  /** Placing a new box keeps the presentation defaults of every box. */
  lemma PlaceKeepsDefaults(boxes: seq<TextBox>, id: string, x: real, y: real, page: int)
    requires AllDefaults(boxes)
    ensures AllDefaults(boxes + [NewTextBox(id, x, y, page)])
  {
  }

  /** An edit keeps the presentation defaults of every box. */
  lemma RenameKeepsDefaults(boxes: seq<TextBox>, id: string, text: string)
    requires AllDefaults(boxes)
    ensures AllDefaults(Rename(boxes, id, text))
  {
  }

  /** A deletion keeps the presentation defaults of every remaining box. */
  lemma RemoveKeepsDefaults(boxes: seq<TextBox>, id: string)
    requires AllDefaults(boxes)
    ensures AllDefaults(Remove(boxes, id))
  {
    var r := Remove(boxes, id);
    forall i | 0 <= i < |r| ensures r[i].fontSize == DefaultFontSize && r[i].color == DefaultColor {
      var j :| 0 <= j < |boxes| && boxes[j] == r[i];
    }
  }

  /** No two boxes of the list share an id. */
  predicate DistinctIds(boxes: seq<TextBox>)
  {
    forall i, j :: 0 <= i < j < |boxes| ==> boxes[i].id != boxes[j].id
  }

  /** A box placed with an id no box carries keeps the ids distinct. */
  lemma PlaceKeepsDistinct(boxes: seq<TextBox>, box: TextBox)
    requires DistinctIds(boxes)
    requires forall i :: 0 <= i < |boxes| ==> boxes[i].id != box.id
    ensures DistinctIds(boxes + [box])
  {
  }

  /** An edit keeps the ids distinct. */
  lemma RenameKeepsDistinct(boxes: seq<TextBox>, id: string, text: string)
    requires DistinctIds(boxes)
    ensures DistinctIds(Rename(boxes, id, text))
  {
  }

  /** A deletion keeps the ids distinct. */
  lemma {:induction false} RemoveKeepsDistinct(boxes: seq<TextBox>, id: string)
    requires DistinctIds(boxes)
    ensures DistinctIds(Remove(boxes, id))
  {
    if boxes != [] {
      var tail := boxes[1..];
      assert DistinctIds(tail) by {
        forall i, j | 0 <= i < j < |tail| ensures tail[i].id != tail[j].id {
          assert tail[i] == boxes[i + 1] && tail[j] == boxes[j + 1];
        }
      }
      RemoveKeepsDistinct(tail, id);
      var rest := Remove(tail, id);
      assert Remove(boxes, id) == (if boxes[0].id != id then [boxes[0]] else []) + rest;
      forall k | 0 <= k < |rest| ensures rest[k].id != boxes[0].id {
        var j :| 0 <= j < |tail| && tail[j] == rest[k];
        assert tail[j] == boxes[j + 1];
      }
    }
  }
}
