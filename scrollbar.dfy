/// The timeline scrollbar view: a value clamped into the scene range, the
/// slider that shows it, the chronometer span, the minimap, and the
/// press/move/release drag machine.
module Scrollbar {
  import opened Geometry
  import opened Slider
  import opened Minimap

  /// Qt::LeftButton in a Qt::MouseButtons mask.
  const LeftButton: bv32 := 1
  const NoButton: bv32 := 0
  /// Ranges shorter than this count as empty.
  const RangeEpsilon: real := 0.001

  /// The signals the scrollbar emits, in order.
  datatype Signal = ValueChanged(value: real) | RangeChanged

  /// The largest value the slider may take: the slider's left edge may not
  /// pass `maximum - sliderWidth`, but never goes below `minimum`.
  function ValueCeiling(minimum: real, maximum: real, sliderWidth: real): (c: real)
    ensures c >= minimum
    ensures c >= maximum - sliderWidth
    ensures c == minimum || c == maximum - sliderWidth
  {
    Max(minimum, maximum - sliderWidth)
  }

  /// The value setValue stores for a requested value `v`.
  function ClampValue(minimum: real, maximum: real, sliderWidth: real, v: real): (r: real)
    ensures minimum <= r <= ValueCeiling(minimum, maximum, sliderWidth)
    ensures minimum <= v <= ValueCeiling(minimum, maximum, sliderWidth) ==> r == v
    ensures v < minimum ==> r == minimum
    ensures v > ValueCeiling(minimum, maximum, sliderWidth) ==> r == ValueCeiling(minimum, maximum, sliderWidth)
  {
    Clamp(minimum, v, ValueCeiling(minimum, maximum, sliderWidth))
  }

  /// Storing a value that is already stored changes nothing.
  lemma ClampValueIdempotent(minimum: real, maximum: real, sliderWidth: real, v: real)
    ensures ClampValue(minimum, maximum, sliderWidth, ClampValue(minimum, maximum, sliderWidth, v))
         == ClampValue(minimum, maximum, sliderWidth, v)
  {
    ClampIdempotent(minimum, v, ValueCeiling(minimum, maximum, sliderWidth));
  }

  /// The relative position setRange carries over: the value divided by the
  /// old range, or 0 when the old range is empty.
  function Fraction(oldMinimum: real, oldMaximum: real, value: real): (f: real)
    ensures oldMaximum - oldMinimum < RangeEpsilon ==> f == 0.0
  {
    var oldRange := oldMaximum - oldMinimum;
    if oldRange < RangeEpsilon then 0.0 else value / oldRange
  }

  /// Over a non-empty old range the fraction, scaled back by that range, is the value.
  lemma FractionScalesBack(oldMinimum: real, oldMaximum: real, value: real)
    requires oldMaximum - oldMinimum >= RangeEpsilon
    ensures Fraction(oldMinimum, oldMaximum, value) * (oldMaximum - oldMinimum) == value
  {
  }

  /// The value setRange asks setValue for: the same fraction of the new range, from `a`.
  function RangeTarget(oldMinimum: real, oldMaximum: real, value: real, a: real, b: real): (t: real)
    ensures oldMaximum - oldMinimum < RangeEpsilon ==> t == a
    ensures b == a ==> t == a
  {
    a + Fraction(oldMinimum, oldMaximum, value) * (b - a)
  }

  /// With the old range starting at 0, setRange keeps the value's relative
  /// position whenever the target needs no clamping.
  lemma SetRangeKeepsRelativePosition(oldMaximum: real, value: real, a: real, b: real, sliderWidth: real)
    requires oldMaximum >= RangeEpsilon && b > a
    requires a <= RangeTarget(0.0, oldMaximum, value, a, b) <= ValueCeiling(a, b, sliderWidth)
    ensures (ClampValue(a, b, sliderWidth, RangeTarget(0.0, oldMaximum, value, a, b)) - a) / (b - a)
         == value / oldMaximum
  {
    var f := Fraction(0.0, oldMaximum, value);
    var t := RangeTarget(0.0, oldMaximum, value, a, b);
    assert f == value / oldMaximum;
    assert t - a == f * (b - a);
    assert ClampValue(a, b, sliderWidth, t) - a == f * (b - a);
    assert (f * (b - a)) / (b - a) == f;
  }

  /// The fraction is taken of the absolute value, not of its offset from the
  /// old minimum: a value half-way along [100, 600] does not stay half-way
  /// when the same range is set again.
  lemma SetRangeShiftedOrigin()
    ensures ClampValue(100.0, 600.0, 1.0, RangeTarget(100.0, 600.0, 350.0, 100.0, 600.0)) == 450.0
    ensures (350.0 - 100.0) / (600.0 - 100.0) == 0.5
    ensures (450.0 - 100.0) / (600.0 - 100.0) == 0.7
  {
    assert Fraction(100.0, 600.0, 350.0) == 0.7;
  }

  /// Pixels per scene unit for a viewport `width` pixels wide.
  function WindowScale(minimum: real, maximum: real, width: real): (s: real)
    ensures maximum - minimum < RangeEpsilon ==> s == 1.0
    ensures (maximum - minimum < RangeEpsilon || width > 0.0) ==> s > 0.0
  {
    var range := maximum - minimum;
    if range < RangeEpsilon then 1.0 else width / range
  }

  /// Over a non-empty range the scaled range fills the viewport exactly.
  lemma WindowScaleFillsViewport(minimum: real, maximum: real, width: real)
    requires maximum - minimum >= RangeEpsilon
    ensures WindowScale(minimum, maximum, width) * (maximum - minimum) == width
  {
  }

  /// The application-wide selection the thread menu writes to.
  class Globals {
    var selectedThread: ThreadId
    /// The selectedThreadChanged notifications, in order.
    ghost var selectionEvents: seq<ThreadId>

    constructor (thread: ThreadId)
      ensures selectedThread == thread && selectionEvents == []
    {
      selectedThread := thread;
      selectionEvents := [];
    }
  }

  class GraphicsScrollbar {
    var minimumValue: real
    var maximumValue: real
    var value: real
    /// Pixels per scene unit.
    var windowScale: real
    /// The horizontal scale of the view transform, which onWindowWidthChange multiplies.
    var viewScale: real
    var mouseButtons: bv32
    var scrolling: bool
    /// The last mouse position seen while the left button was down, in widget pixels.
    var pressX: int
    var pressY: int
    var sceneRect: Rect
    ghost var signals: seq<Signal>
    const slider: SliderItem
    const chrono: SliderItem
    const minimap: MinimapItem

    function Range(): (r: real)
      reads this
      ensures minimumValue + r == maximumValue
    {
      maximumValue - minimumValue
    }

    /// The structure every public operation keeps.
    ghost predicate Consistent()
      reads this, slider, chrono, minimap
    {
      && slider != chrono
      && slider.Valid() && chrono.Valid() && minimap.Valid()
      && windowScale > 0.0 && viewScale == windowScale
      && sceneRect == Rect(minimumValue, DefaultTop, maximumValue - minimumValue, DefaultHeight)
      && minimap.boundingRect == sceneRect
      && minimap.visible == minimap.source.Some?
    }

    /// Consistent, and the value inside its bounds.
    ghost predicate Valid()
      reads this, slider, chrono, minimap
    {
      && Consistent()
      && minimumValue <= value <= ValueCeiling(minimumValue, maximumValue, slider.Width())
    }

    constructor ()
      ensures Valid() && fresh(slider) && fresh(chrono) && fresh(minimap)
      ensures minimumValue == 0.0 && maximumValue == 500.0 && value == 10.0
      ensures windowScale == 1.0 && mouseButtons == NoButton && !scrolling
      ensures pressX == 0 && pressY == 0
      ensures sceneRect == Rect(0.0, DefaultTop, 500.0, DefaultHeight)
      ensures slider.Width() == 1.0 && slider.x == 0.0 && slider.visible
      ensures chrono.Width() == 1.0 && chrono.x == 0.0 && !chrono.visible
      ensures minimap.source == None && minimap.threadId == 0 && !minimap.visible
      ensures signals == []
    {
      minimumValue := 0.0;
      maximumValue := 500.0;
      value := 10.0;
      windowScale := 1.0;
      viewScale := 1.0;
      mouseButtons := NoButton;
      scrolling := false;
      pressX, pressY := 0, 0;
      sceneRect := Rect(0.0, DefaultTop, 500.0, DefaultHeight);
      signals := [];
      var s := new SliderItem(true);
      var c := new SliderItem(false);
      var m := new MinimapItem();
      slider := s;
      chrono := c;
      minimap := m;
      new;
      chrono.Hide();
      minimap.SetBoundingRect(sceneRect);
      minimap.Hide();
    }

    /// Stores `v` clamped into [minimum, max(minimum, maximum - sliderWidth)]
    /// and moves the slider's centre to match.
    method SetValue(v: real)
      requires Consistent()
      modifies this`value, this`signals, slider`x
      ensures Valid()
      ensures value == ClampValue(minimumValue, maximumValue, slider.Width(), v)
      ensures slider.x == value + slider.halfwidth
      ensures signals == old(signals) + [ValueChanged(value)]
    {
      value := Clamp(minimumValue, v, Max(minimumValue, maximumValue - slider.Width()));
      slider.SetX(value + slider.halfwidth);
      signals := signals + [ValueChanged(value)];
    }

    /// Sets the scene range to [a, b], carries the value over by its
    /// fraction of the old range, and rescales for a viewport `viewportWidth` wide.
    method SetRange(a: real, b: real, viewportWidth: real)
      requires Consistent()
      requires b - a < RangeEpsilon || viewportWidth > 0.0
      modifies this`minimumValue, this`maximumValue, this`sceneRect, minimap`boundingRect
      modifies this`value, this`signals, slider`x, this`windowScale, this`viewScale
      ensures Valid()
      ensures minimumValue == a && maximumValue == b
      ensures sceneRect == Rect(a, DefaultTop, b - a, DefaultHeight) && minimap.boundingRect == sceneRect
      ensures value == ClampValue(a, b, slider.Width(),
                                  RangeTarget(old(minimumValue), old(maximumValue), old(value), a, b))
      ensures slider.x == value + slider.halfwidth
      ensures windowScale == WindowScale(a, b, viewportWidth)
      ensures signals == old(signals) + [RangeChanged, ValueChanged(value)]
    {
      var oldRange := Range();
      var oldValue := if oldRange < RangeEpsilon then 0.0 else value / oldRange;
      ghost var target := RangeTarget(minimumValue, maximumValue, value, a, b);
      assert oldValue == Fraction(minimumValue, maximumValue, value);
      minimumValue := a;
      maximumValue := b;
      sceneRect := Rect(a, DefaultTop, b - a, DefaultHeight);
      minimap.SetBoundingRect(sceneRect);
      signals := signals + [RangeChanged];
      assert a + oldValue * Range() == target;
      assert Consistent();
      SetValue(a + oldValue * Range());
      OnWindowWidthChange(viewportWidth);
    }

    /// Resizes the slider, then re-clamps the current value against the new width.
    method SetSliderWidth(width: real)
      requires Consistent()
      modifies slider`halfwidth, slider`rect, slider`x, this`value, this`signals
      ensures Valid()
      ensures slider.Width() == width && slider.halfwidth == width / 2.0
      ensures value == ClampValue(minimumValue, maximumValue, width, old(value))
      ensures slider.x == value + slider.halfwidth
      ensures signals == old(signals) + [ValueChanged(value)]
    {
      slider.SetWidth(width);
      SetValue(value);
    }

    /// Places the chronometer indicator over exactly [left, right].
    method SetChronoPos(left: real, right: real)
      requires Consistent()
      modifies chrono`halfwidth, chrono`rect, chrono`x
      ensures Consistent()
      ensures chrono.Width() == right - left
      ensures chrono.x - chrono.halfwidth == left && chrono.x + chrono.halfwidth == right
    {
      chrono.SetWidth(right - left);
      chrono.SetX(left + chrono.halfwidth);
    }

    method ShowChrono()
      modifies chrono`visible
      ensures chrono.visible
    {
      chrono.Show();
    }

    method HideChrono()
      modifies chrono`visible
      ensures !chrono.visible
    {
      chrono.Hide();
    }

    /// Hands the block list of thread `id` to the minimap.
    method SetMinimapFrom(id: ThreadId, items: Option<seq<Item>>)
      requires Consistent()
      modifies minimap`source, minimap`threadId, minimap`maxDuration, minimap`minDuration, minimap`visible
      ensures Consistent()
      ensures minimap.threadId == id
      ensures minimap.source == if items.None? || |items.value| == 0 then None else items
    {
      minimap.SetSource(id, items);
    }

    /// A press stores the buttons; with the left button it starts a drag at
    /// `(x, y)` and jumps the slider so that its centre lands on scene x `sceneX`.
    method MousePress(buttons: bv32, x: int, y: int, sceneX: real)
      requires Consistent()
      modifies this`mouseButtons, this`scrolling, this`pressX, this`pressY
      modifies this`value, this`signals, slider`x
      ensures Consistent()
      ensures mouseButtons == buttons
      ensures buttons & LeftButton != 0 ==>
                && Valid() && scrolling && pressX == x && pressY == y
                && value == ClampValue(minimumValue, maximumValue, slider.Width(),
                                       sceneX - minimumValue - slider.halfwidth)
                && signals == old(signals) + [ValueChanged(value)]
                && slider.x == value + slider.halfwidth
      ensures buttons & LeftButton == 0 ==>
                && scrolling == old(scrolling) && pressX == old(pressX) && pressY == old(pressY)
                && value == old(value) && signals == old(signals) && slider.x == old(slider.x)
    {
      mouseButtons := buttons;
      if mouseButtons & LeftButton != 0 {
        scrolling := true;
        pressX, pressY := x, y;
        SetValue(sceneX - minimumValue - slider.halfwidth);
      }
    }

    /// A release stores the buttons and ends any drag; the value stays.
    method MouseRelease(buttons: bv32)
      modifies this`mouseButtons, this`scrolling
      ensures mouseButtons == buttons && !scrolling
    {
      mouseButtons := buttons;
      scrolling := false;
    }

    /// While the left button is down, a move to `(x, y)` records the new
    /// position and, during a drag, shifts the value by the horizontal
    /// distance in scene units.
    method MouseMove(x: int, y: int)
      requires Consistent()
      modifies this`pressX, this`pressY, this`value, this`signals, slider`x
      ensures Consistent()
      ensures mouseButtons & LeftButton != 0 ==> pressX == x && pressY == y
      ensures mouseButtons & LeftButton != 0 && scrolling ==>
                && Valid()
                && value == ClampValue(minimumValue, maximumValue, slider.Width(),
                                       old(value) + (x - old(pressX)) as real / windowScale)
                && signals == old(signals) + [ValueChanged(value)]
                && slider.x == value + slider.halfwidth
      ensures !(mouseButtons & LeftButton != 0 && scrolling) ==>
                value == old(value) && signals == old(signals) && slider.x == old(slider.x)
      ensures mouseButtons & LeftButton == 0 ==> pressX == old(pressX) && pressY == old(pressY)
    {
      if mouseButtons & LeftButton != 0 {
        var dx := x - pressX;
        pressX, pressY := x, y;
        if scrolling {
          SetValue(value + dx as real / windowScale);
        }
      }
    }

    /// Recomputes the pixels-per-unit scale for a viewport `width` pixels wide
    /// and rescales the view by the ratio of the new scale to the old.
    method OnWindowWidthChange(width: real)
      requires Consistent()
      requires Range() < RangeEpsilon || width > 0.0
      modifies this`windowScale, this`viewScale
      ensures Consistent()
      ensures old(Valid()) ==> Valid()
      ensures windowScale == WindowScale(minimumValue, maximumValue, width)
      ensures viewScale == old(viewScale) * (windowScale / old(windowScale))
    {
      var oldScale := windowScale;
      var scrollingRange := Range();
      if scrollingRange < RangeEpsilon {
        windowScale := 1.0;
      } else {
        windowScale := width / scrollingRange;
      }
      viewScale := viewScale * (windowScale / oldScale);
    }

    /// Choosing a thread in the menu selects it, unless the minimap already shows it.
    method OnThreadActionClicked(id: ThreadId, globals: Globals)
      modifies globals
      ensures id != minimap.threadId ==>
                globals.selectedThread == id && globals.selectionEvents == old(globals.selectionEvents) + [id]
      ensures id == minimap.threadId ==>
                globals.selectedThread == old(globals.selectedThread)
                && globals.selectionEvents == old(globals.selectionEvents)
    {
      if id != minimap.threadId {
        globals.selectedThread := id;
        globals.selectionEvents := globals.selectionEvents + [id];
      }
    }
  }

  /// From the initial state with a 50-wide slider: a left press at scene x
  /// 300 puts the value at 275, a 50-pixel move takes it to 325, and the
  /// release ends the drag without moving it.
  method DragScenario() returns (afterPress: real, afterMove: real, afterRelease: real, dragging: bool)
    ensures afterPress == 275.0 && afterMove == 325.0 && afterRelease == 325.0 && !dragging
  {
    var bar := new GraphicsScrollbar();
    bar.SetSliderWidth(50.0);
    bar.MousePress(LeftButton, 300, 0, 300.0);
    afterPress := bar.value;
    bar.MouseMove(350, 0);
    afterMove := bar.value;
    bar.MouseRelease(NoButton);
    afterRelease := bar.value;
    dragging := bar.scrolling;
  }

  /// From the initial state: value 100 on [0, 500] becomes 200 on [0, 1000].
  method SetRangeScenario() returns (newValue: real, newScale: real)
    ensures newValue == 200.0 && newScale == 1.0
  {
    var bar := new GraphicsScrollbar();
    bar.SetValue(100.0);
    bar.SetRange(0.0, 1000.0, 1000.0);
    newValue := bar.value;
    newScale := bar.windowScale;
  }
}
