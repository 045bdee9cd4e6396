/// Shared vocabulary of the timeline scrollbar: scene geometry, the painter
/// command log that stands for QPainter calls, and the clamp helper.
module Geometry {

  /// Vertical layout of the track: every item spans [DefaultTop, DefaultTop + DefaultHeight].
  const DefaultTop: real := -40.0
  const DefaultHeight: real := 80.0
  /// Size in device pixels of the marker triangles and the width below which they are drawn.
  const IndicatorSize: real := 8.0

  datatype Option<T> = None | Some(value: T)

  /// A QPointF.
  datatype Point = Point(x: real, y: real)

  /// A QRectF given by its top-left corner and its (possibly negative) extent.
  datatype Rect = Rect(left: real, top: real, width: real, height: real) {
    function Right(): real { left + width }
    function Bottom(): real { top + height }
    function CenterX(): real { left + width / 2.0 }
  }

  /// One painter call. Brush colours are QRgb values.
  datatype PaintCmd =
    | SetBrush(color: nat)
    | DrawRect(rect: Rect)
    | DrawPolygon(points: seq<Point>)

  function Max(a: real, b: real): (m: real)
    ensures m >= a && m >= b
    ensures m == a || m == b
  {
    if a < b then b else a
  }

  /// The `clamp` lambda of the scrollbar: `lo` if below it, otherwise `hi` if above it.
  function Clamp(lo: real, v: real, hi: real): (r: real)
    ensures lo <= hi ==> lo <= r <= hi
    ensures lo <= v <= hi ==> r == v
    ensures v < lo ==> r == lo
    ensures lo <= v && hi < v ==> r == hi
  {
    if v < lo then lo else if v > hi then hi else v
  }

  /// Clamping into a non-empty interval is idempotent.
  lemma ClampIdempotent(lo: real, v: real, hi: real)
    requires lo <= hi
    ensures Clamp(lo, Clamp(lo, v, hi), hi) == Clamp(lo, v, hi)
  {
  }

  /// The colours a painter log sets as brushes, in order.
  function Brushes(log: seq<PaintCmd>): (bs: seq<nat>)
    ensures |bs| <= |log|
  {
    if log == [] then []
    else Brushes(log[..|log| - 1]) +
         (if log[|log| - 1].SetBrush? then [log[|log| - 1].color] else [])
  }

  /// The rectangles a painter log draws, in order.
  function Rects(log: seq<PaintCmd>): (rs: seq<Rect>)
    ensures |rs| <= |log|
  {
    if log == [] then []
    else Rects(log[..|log| - 1]) +
         (if log[|log| - 1].DrawRect? then [log[|log| - 1].rect] else [])
  }

  lemma {:induction false} BrushesAppend(a: seq<PaintCmd>, b: seq<PaintCmd>)
    ensures Brushes(a + b) == Brushes(a) + Brushes(b)
    decreases |b|
  {
    if b == [] {
      assert a + b == a;
    } else {
      var b' := b[..|b| - 1];
      assert (a + b)[..|a + b| - 1] == a + b';
      BrushesAppend(a, b');
    }
  }

  lemma {:induction false} RectsAppend(a: seq<PaintCmd>, b: seq<PaintCmd>)
    ensures Rects(a + b) == Rects(a) + Rects(b)
    decreases |b|
  {
    if b == [] {
      assert a + b == a;
    } else {
      var b' := b[..|b| - 1];
      assert (a + b)[..|a + b| - 1] == a + b';
      RectsAppend(a, b');
    }
  }
}
