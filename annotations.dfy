/**
 * Freehand and highlight strokes of the annotation workspace: the record a
 * finished gesture becomes, the per-page store that holds them, the stroke
 * style rule shared by live drawing and replay, and which stored strokes the
 * replay draws.
 */
module Annotations {
  import opened Wrappers
  import Seqs

  /** The tools of the toolbar, including 'text', which the type admits but no button selects. */
  datatype Tool = Select | Highlight | Pen | Text | Eraser | Edit

  datatype HighlightColor = Yellow | Green | Blue | Pink

  /** A position in the drawing canvas, in container pixels as recorded. */
  datatype Point = Point(x: real, y: real)

  /** A committed stroke. `x`/`y` repeat the first point; `color` is set for highlights only. */
  datatype Annotation = Annotation(
    id: string,
    kind: Tool,
    color: Option<HighlightColor>,
    x: real,
    y: real,
    points: seq<Point>)

  /** `Record<number, Annotation[]>`: page number to that page's strokes in commit order. */
  type Store = map<int, seq<Annotation>>

  /** Mouse-down and mouse-move are ignored under these two tools. */
  predicate Draws(tool: Tool)
  {
    tool != Select && tool != Edit
  }

  function ColorName(c: HighlightColor): string
  {
    match c
    case Yellow => "yellow"
    case Green => "green"
    case Blue => "blue"
    case Pink => "pink"
  }

  /** A colour interpolated into a template string: an absent one reads "undefined". */
  function TemplateColor(c: Option<HighlightColor>): string
  {
    match c
    case Some(hc) => ColorName(hc)
    case None => "undefined"
  }

  /** The record mouse-up builds from the stroke in progress: it fits the store,
      keeps the tool and the whole stroke, and carries the chosen colour exactly
      when the tool is highlight. */
  function NewAnnotation(id: string, tool: Tool, highlight: HighlightColor, stroke: seq<Point>): (a: Annotation)
    requires |stroke| > 0
    ensures WellFormed(a)
    ensures a.id == id && a.kind == tool && a.points == stroke
    ensures tool == Highlight ==> a.color == Some(highlight)
  {
    Annotation(id, tool, if tool == Highlight then Some(highlight) else None,
               stroke[0].x, stroke[0].y, stroke)
  }

  /** What every stroke in the store satisfies. */
  predicate WellFormed(a: Annotation)
  {
    && |a.points| >= 1
    && a.x == a.points[0].x && a.y == a.points[0].y
    && (a.color.Some? <==> a.kind == Highlight)
  }

  predicate StoreWellFormed(store: Store)
  {
    forall p, i :: p in store && 0 <= i < |store[p]| ==> WellFormed(store[p][i])
  }

  /** `annotations[page] || []`. */
  function PageAnnotations(store: Store, page: int): seq<Annotation>
  {
    if page in store then store[page] else []
  }

  /** `{ ...prev, [page]: [...(prev[page] || []), a] }`. */
  function Commit(store: Store, page: int, a: Annotation): (r: Store)
    ensures PageAnnotations(r, page) == PageAnnotations(store, page) + [a]
    ensures forall q :: q != page ==> PageAnnotations(r, q) == PageAnnotations(store, q)
    ensures r.Keys == store.Keys + {page}
  {
    store[page := PageAnnotations(store, page) + [a]]
  }

  /** `{ ...prev, [page]: [] }`. */
  function ClearPage(store: Store, page: int): (r: Store)
    ensures PageAnnotations(r, page) == []
    ensures forall q :: q != page ==> PageAnnotations(r, q) == PageAnnotations(store, q)
    ensures r.Keys == store.Keys + {page}
  {
    store[page := []]
  }

  /** Committing a well-formed stroke keeps every stroke well-formed. */
  lemma CommitWellFormed(store: Store, page: int, a: Annotation)
    requires StoreWellFormed(store) && WellFormed(a)
    ensures StoreWellFormed(Commit(store, page, a))
  {
    var r := Commit(store, page, a);
    forall p, i | p in r && 0 <= i < |r[p]| ensures WellFormed(r[p][i]) {
      if p == page && i == |r[p]| - 1 {
        assert r[p][i] == a;
      } else if p == page {
        assert r[p][i] == store[p][i];
      }
    }
  }

  /** Clearing a page keeps every remaining stroke well-formed. */
  lemma ClearWellFormed(store: Store, page: int)
    requires StoreWellFormed(store)
    ensures StoreWellFormed(ClearPage(store, page))
  {
  }

  /** The canvas settings of one stroke. */
  datatype StrokeStyle = StrokeStyle(color: string, width: nat, alpha: real)

  /** The rule both drawing paths share: highlight is the chosen colour, wide and
      translucent; pen is thin opaque black; every other tool paints wide opaque white. */
  function StyleFor(tool: Tool, color: string): (s: StrokeStyle)
    ensures tool == Highlight ==> s == StrokeStyle(color, 20, 0.3)
    ensures tool == Pen ==> s == StrokeStyle("#000000", 2, 1.0)
    ensures tool != Highlight && tool != Pen ==> s == StrokeStyle("#ffffff", 10, 1.0)
    ensures s.alpha < 1.0 <==> tool == Highlight
  {
    StrokeStyle(
      if tool == Highlight then color else if tool == Pen then "#000000" else "#ffffff",
      if tool == Highlight then 20 else if tool == Pen then 2 else 10,
      if tool == Highlight then 0.3 else 1.0)
  }

  /** The style of a segment drawn while the mouse moves. */
  function LiveStyle(tool: Tool, highlight: HighlightColor): StrokeStyle
  {
    StyleFor(tool, ColorName(highlight))
  }

  /** The style the replay gives a stored stroke. */
  function ReplayStyle(a: Annotation): StrokeStyle
  {
    StyleFor(a.kind, TemplateColor(a.color))
  }

  /** A stored stroke is replayed in the style it was drawn in live, provided the
      tool and colour did not change between the last move and mouse-up. */
  lemma ReplayStyleMatchesLive(id: string, tool: Tool, highlight: HighlightColor, stroke: seq<Point>)
    requires |stroke| > 0
    ensures ReplayStyle(NewAnnotation(id, tool, highlight, stroke)) == LiveStyle(tool, highlight)
  {
  }

  /** A straight piece of a stroke between two recorded points. */
  datatype Segment = Segment(from: Point, to: Point)

  /** What one mouse-move paints: the piece from the last recorded point to the new one. */
  datatype LiveDraw = LiveDraw(segment: Segment, style: StrokeStyle)

  /** The pieces between consecutive points of a stroke. */
  function Segments(points: seq<Point>): (r: seq<Segment>)
    ensures |r| == if |points| <= 1 then 0 else |points| - 1
    ensures forall i :: 0 <= i < |r| ==> r[i] == Segment(points[i], points[i + 1])
  {
    if |points| <= 1 then [] else [Segment(points[0], points[1])] + Segments(points[1..])
  }

  /** Extending a stroke by one point adds exactly the piece a mouse-move paints. */
  lemma {:induction false} SegmentsSnoc(points: seq<Point>, p: Point)
    requires |points| > 0
    ensures Segments(points + [p]) == Segments(points) + [Segment(points[|points| - 1], p)]
  {
    if |points| > 1 {
      assert (points + [p])[1..] == points[1..] + [p];
      SegmentsSnoc(points[1..], p);
    }
  }

  /** One stroke as the replay draws it: a polyline through its points. */
  datatype Path = Path(style: StrokeStyle, points: seq<Point>)

  function Draw(a: Annotation): Path
  {
    Path(ReplayStyle(a), a.points)
  }

  /** The replay loop: every stroke with more than one point, in commit order. */
  function Replay(anns: seq<Annotation>): (r: seq<Path>)
    ensures |r| <= |anns|
    ensures forall i :: 0 <= i < |r| ==> |r[i].points| > 1
    ensures forall i :: 0 <= i < |anns| && |anns[i].points| > 1 ==> Draw(anns[i]) in r
    ensures forall i :: 0 <= i < |r| ==> r[i] in DrawAll(anns)
  {
    if anns == [] then []
    else
      var rest := Replay(anns[1..]);
      assert DrawAll(anns) == [Draw(anns[0])] + DrawAll(anns[1..]);
      (if |anns[0].points| > 1 then [Draw(anns[0])] else []) + rest
  }

  /** Committing a stroke adds it at the end of the replay, or not at all when it
      has a single point: such a stroke is stored but never drawn again. */
  lemma {:induction false} ReplaySnoc(anns: seq<Annotation>, a: Annotation)
    ensures Replay(anns + [a]) == Replay(anns) + (if |a.points| > 1 then [Draw(a)] else [])
  {
    if anns == [] {
      assert [a][1..] == [];
    } else {
      assert (anns + [a])[1..] == anns[1..] + [a];
      ReplaySnoc(anns[1..], a);
    }
  }

  /** The replay's guard `points.length > 1`, as a filter predicate. */
  function MultiPoint(): Annotation -> bool
  {
    (a: Annotation) => |a.points| > 1
  }

  /** Drawing each stroke of a list, the second half of the replay's reference definition. */
  function DrawAll(anns: seq<Annotation>): (r: seq<Path>)
    ensures |r| == |anns|
    ensures forall i :: 0 <= i < |anns| ==> r[i] == Draw(anns[i])
  {
    if anns == [] then [] else [Draw(anns[0])] + DrawAll(anns[1..])
  }

  /** The replay is "keep the strokes with more than one point, then draw each". */
  lemma {:induction false} ReplayIsFilterThenDraw(anns: seq<Annotation>)
    ensures Replay(anns) == DrawAll(Seqs.Filter(anns, MultiPoint()))
  {
    if anns != [] {
      ReplayIsFilterThenDraw(anns[1..]);
      var head := if |anns[0].points| > 1 then [anns[0]] else [];
      var rest := Seqs.Filter(anns[1..], MultiPoint());
      assert MultiPoint()(anns[0]) == (|anns[0].points| > 1);
      assert Seqs.Filter(anns, MultiPoint()) == head + rest;
      if head == [] {
        assert head + rest == rest;
      } else {
        assert (head + rest)[1..] == rest;
      }
    }
  }
}
