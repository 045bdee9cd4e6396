/// The slider item of the timeline scrollbar: one instance is the main
/// viewport slider, another the chronometer span indicator.
module Slider {
  import opened Geometry

  /// The left marker: a triangle whose tip touches `tip` and whose base lies
  /// IndicatorSize pixels further left, so that it points right (inward).
  function LeftMarker(tip: real, vcenter: real): (p: seq<Point>)
    ensures |p| == 3 && p[1] == Point(tip, vcenter)
    ensures forall k :: 0 <= k < 3 ==> p[k].x <= tip
    ensures p[0].x == p[2].x == tip - IndicatorSize
  {
    [Point(tip - IndicatorSize, vcenter - IndicatorSize),
     Point(tip, vcenter),
     Point(tip - IndicatorSize, vcenter + IndicatorSize)]
  }

  /// The right marker: the mirror image, tip at `tip`, base IndicatorSize pixels further right.
  function RightMarker(tip: real, vcenter: real): (p: seq<Point>)
    ensures |p| == 3 && p[1] == Point(tip, vcenter)
    ensures forall k :: 0 <= k < 3 ==> p[k].x >= tip
    ensures p[0].x == p[2].x == tip + IndicatorSize
  {
    [Point(tip + IndicatorSize, vcenter - IndicatorSize),
     Point(tip, vcenter),
     Point(tip + IndicatorSize, vcenter + IndicatorSize)]
  }

  /// The item rectangle for a given half-width: centred on the item's position.
  function CenteredRect(halfwidth: real): (r: Rect)
    ensures r.CenterX() == 0.0 && r.width == 2.0 * halfwidth
  {
    Rect(-halfwidth, DefaultTop, halfwidth * 2.0, DefaultHeight)
  }

  /// The rectangle the slider paints, in device pixels, from its item
  /// rectangle `br`, its logical width and the current window scale: never
  /// narrower than one pixel, and always centred on the scaled logical centre.
  function RenderedRect(br: Rect, width: real, scale: real): (r: Rect)
    ensures r.width == Max(width * scale, 1.0)
    ensures r.CenterX() == (br.left + width / 2.0) * scale
    ensures r.top == br.top && r.height == br.height
  {
    var w := width * scale;
    if w < 1.0 then Rect((w - 1.0) * 0.5 + br.left * scale, br.top, 1.0, br.height)
    else Rect(br.left * scale, br.top, w, br.height)
  }

  /// The markers are drawn exactly when the device width before flooring is below the threshold.
  lemma MarkersIffNarrow(br: Rect, width: real, scale: real)
    ensures RenderedRect(br, width, scale).width < IndicatorSize <==> width * scale < IndicatorSize
  {
  }

  /// A slider whose logical width collapses below a pixel is drawn exactly one
  /// pixel wide, exactly on its logical centre, which for the item's own
  /// rectangle is the item position (local x = 0).
  lemma CollapsedSliderCentred(halfwidth: real, scale: real)
    requires halfwidth * 2.0 * scale < 1.0
    ensures RenderedRect(CenteredRect(halfwidth), halfwidth * 2.0, scale).width == 1.0
    ensures RenderedRect(CenteredRect(halfwidth), halfwidth * 2.0, scale).CenterX() == 0.0
  {
    var r := RenderedRect(CenteredRect(halfwidth), halfwidth * 2.0, scale);
    assert r.CenterX() == (-halfwidth + halfwidth * 2.0 / 2.0) * scale;
  }

  class SliderItem {
    /// Half of the logical width.
    var halfwidth: real
    /// The item rectangle, in item coordinates.
    var rect: Rect
    /// The item position along the track (QGraphicsItem::x).
    var x: real
    var visible: bool
    /// The two marker polygons; paint moves their points horizontally.
    var leftIndicator: seq<Point>
    var rightIndicator: seq<Point>
    /// Vertical centre of the markers: near the top for the main slider, near the bottom otherwise.
    const vcenter: real

    ghost predicate Valid()
      reads this
    {
      && rect == CenteredRect(halfwidth)
      && |leftIndicator| == 3 && leftIndicator == LeftMarker(leftIndicator[1].x, vcenter)
      && |rightIndicator| == 3 && rightIndicator == RightMarker(rightIndicator[1].x, vcenter)
    }

    function Width(): (w: real)
      reads this
      ensures Valid() ==> w == rect.width
    {
      halfwidth * 2.0
    }

    constructor (main: bool)
      ensures Valid() && visible && x == 0.0
      ensures vcenter == DefaultTop + (if main then IndicatorSize else DefaultHeight - IndicatorSize)
      ensures Width() == 1.0 && halfwidth == 0.5
      ensures leftIndicator == LeftMarker(0.0, vcenter) && rightIndicator == RightMarker(0.0, vcenter)
    {
      vcenter := DefaultTop + (if main then IndicatorSize else DefaultHeight - IndicatorSize);
      halfwidth := 0.0;
      leftIndicator := LeftMarker(0.0, DefaultTop + (if main then IndicatorSize else DefaultHeight - IndicatorSize));
      rightIndicator := RightMarker(0.0, DefaultTop + (if main then IndicatorSize else DefaultHeight - IndicatorSize));
      rect := CenteredRect(0.0);
      x := 0.0;
      visible := true;
      new;
      SetWidth(1.0);
    }

    method SetWidth(w: real)
      requires Valid()
      modifies this`halfwidth, this`rect
      ensures Valid()
      ensures Width() == w && halfwidth == w / 2.0
      ensures rect == Rect(-w / 2.0, DefaultTop, w, DefaultHeight)
    {
      halfwidth := w * 0.5;
      rect := Rect(-halfwidth, DefaultTop, w, DefaultHeight);
    }

    method SetHalfwidth(h: real)
      requires Valid()
      modifies this`halfwidth, this`rect
      ensures Valid()
      ensures halfwidth == h && Width() == 2.0 * h
      ensures rect == Rect(-h, DefaultTop, 2.0 * h, DefaultHeight)
    {
      halfwidth := h;
      rect := Rect(-halfwidth, DefaultTop, halfwidth * 2.0, DefaultHeight);
    }

    method SetX(newX: real)
      modifies this`x
      ensures x == newX
    {
      x := newX;
    }

    method Show()
      modifies this`visible
      ensures visible
    {
      visible := true;
    }

    method Hide()
      modifies this`visible
      ensures !visible
    {
      visible := false;
    }

    /// Paints the slider at window scale `scale`: the body rectangle, then,
    /// when it is narrower than IndicatorSize pixels, the two markers whose
    /// tips touch its left and right edges.
    method Paint(scale: real) returns (log: seq<PaintCmd>)
      requires Valid()
      modifies this`leftIndicator, this`rightIndicator
      ensures Valid()
      ensures var r := RenderedRect(rect, Width(), scale);
        && (r.width < IndicatorSize ==>
              && leftIndicator == LeftMarker(r.left, vcenter)
              && rightIndicator == RightMarker(r.Right(), vcenter)
              && log == [DrawRect(r), DrawPolygon(leftIndicator), DrawPolygon(rightIndicator)])
        && (r.width >= IndicatorSize ==>
              && leftIndicator == old(leftIndicator) && rightIndicator == old(rightIndicator)
              && log == [DrawRect(r)])
    {
      var br := rect;
      var w := Width() * scale;
      var dx := 0.0;
      if w < 1.0 {
        dx := (w - 1.0) * 0.5;
        w := 1.0;
      }
      var r := Rect(dx + br.left * scale, br.top, w, br.height);
      assert r == RenderedRect(br, Width(), scale);
      log := [DrawRect(r)];
      if w < IndicatorSize {
        leftIndicator := leftIndicator[0 := leftIndicator[0].(x := r.left - IndicatorSize)];
        leftIndicator := leftIndicator[1 := leftIndicator[1].(x := r.left)];
        leftIndicator := leftIndicator[2 := leftIndicator[2].(x := r.left - IndicatorSize)];
        var rRight := r.Right();
        rightIndicator := rightIndicator[0 := rightIndicator[0].(x := rRight + IndicatorSize)];
        rightIndicator := rightIndicator[1 := rightIndicator[1].(x := rRight)];
        rightIndicator := rightIndicator[2 := rightIndicator[2].(x := rRight + IndicatorSize)];
        log := log + [DrawPolygon(leftIndicator), DrawPolygon(rightIndicator)];
      }
    }
  }
}
