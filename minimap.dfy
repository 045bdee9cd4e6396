/// The minimap drawn under the scrollbar track: one bar per block of the
/// selected thread, its height graded by duration, its colour a heat ramp.
module Minimap {
  import opened Geometry

  type ThreadId = nat

  /// A block of the thread's flat list: where it starts and how long it lasts.
  datatype Item = Item(left: real, width: real)

  /// Starting value of the running minimum (1e30).
  const MinSentinel: real := 1000000000000000000000000000000.0
  /// No bar is lower than this many pixels.
  const MinBarHeight: real := 5.0
  /// Colours are QRgb values (0xAARRGGBB) read as numbers. Keeping the low
  /// 24 bits (`& 0x00ffffff`) is the remainder modulo RgbModulus, and setting
  /// the alpha byte of such a colour (`0xc0000000 | rgb`) adds BrushAlpha;
  /// RgbMaskIsRemainder and BrushAlphaIsSum state both facts on 32-bit words.
  const RgbModulus: nat := 0x100_0000
  /// The alpha every bar brush carries.
  const BrushAlpha: nat := 0xc000_0000

  lemma RgbMaskIsRemainder(q: bv32)
    ensures q & 0x00ff_ffff == q % 0x100_0000
  {
  }

  lemma BrushAlphaIsSum(rgb: bv32)
    requires rgb < 0x100_0000
    ensures 0xc000_0000 | rgb == 0xc000_0000 + rgb
  {
  }

  // ---------------------------------------------------------------------
  // The one-pass minimum and maximum of setSource, as functions of the list
  // prefix seen so far.

  /// The running maximum, starting from 0.
  function MaxDuration(items: seq<Item>): (m: real)
    ensures m >= 0.0
    ensures forall i :: 0 <= i < |items| ==> items[i].width <= m
    ensures m == 0.0 || exists i :: 0 <= i < |items| && items[i].width == m
  {
    if items == [] then 0.0
    else
      var m := MaxDuration(items[..|items| - 1]);
      var w := items[|items| - 1].width;
      if w > m then w else m
  }

  /// The running minimum, starting from MinSentinel.
  function MinDuration(items: seq<Item>): (m: real)
    ensures m <= MinSentinel
    ensures forall i :: 0 <= i < |items| ==> m <= items[i].width
    ensures m == MinSentinel || exists i :: 0 <= i < |items| && items[i].width == m
  {
    if items == [] then MinSentinel
    else
      var m := MinDuration(items[..|items| - 1]);
      var w := items[|items| - 1].width;
      if w < m then w else m
  }

  /// On a non-empty list the two bounds are ordered, and each is the width of
  /// some item unless that item would lie beyond its sentinel.
  lemma DurationBounds(items: seq<Item>)
    requires |items| > 0
    ensures MinDuration(items) <= MaxDuration(items)
    ensures (exists i :: 0 <= i < |items| && items[i].width > 0.0) ==>
              exists i :: 0 <= i < |items| && items[i].width == MaxDuration(items)
    ensures (exists i :: 0 <= i < |items| && items[i].width < MinSentinel) ==>
              exists i :: 0 <= i < |items| && items[i].width == MinDuration(items)
  {
    assert MinDuration(items) <= items[0].width <= MaxDuration(items);
  }

  // ---------------------------------------------------------------------
  // Geometry and colour of one bar.

  /// What paint derives once from the item state before drawing the bars.
  datatype BarLayout = BarLayout(scale: real, bottom: real, height: real, minDuration: real, coeff: real)

  /// Height of the bar of a block of duration `width`, floored at MinBarHeight.
  function BarHeight(width: real, minDuration: real, coeff: real): (h: real)
    ensures h >= MinBarHeight
    ensures h >= (width - minDuration) * coeff
    ensures h == MinBarHeight || h == (width - minDuration) * coeff
  {
    Max((width - minDuration) * coeff, MinBarHeight)
  }

  /// With coeff = height / (max - min), the shortest block gets the floor height
  /// and the longest block the full height, once that is at least the floor.
  lemma BarHeightExtremes(minDuration: real, maxDuration: real, height: real)
    requires maxDuration > minDuration
    ensures BarHeight(minDuration, minDuration, height / (maxDuration - minDuration)) == MinBarHeight
    ensures height >= MinBarHeight ==>
              BarHeight(maxDuration, minDuration, height / (maxDuration - minDuration)) == height
  {
    var d := maxDuration - minDuration;
    assert d * (height / d) == height;
  }

  /// Longer blocks never get lower bars.
  lemma BarHeightMonotone(w1: real, w2: real, minDuration: real, coeff: real)
    requires w1 <= w2 && coeff >= 0.0
    ensures BarHeight(w1, minDuration, coeff) <= BarHeight(w2, minDuration, coeff)
  {
    var d := w2 - w1;
    assert d >= 0.0;
    assert d * coeff >= 0.0;
    assert (w2 - minDuration) * coeff == (w1 - minDuration) * coeff + d * coeff;
  }

  /// A block whose duration lies between the minimum and the maximum gets a
  /// bar that fits the track, when the track is at least MinBarHeight high.
  lemma BarHeightWithinTrack(w: real, minDuration: real, maxDuration: real, height: real)
    requires minDuration <= w <= maxDuration && minDuration < maxDuration
    requires height >= MinBarHeight
    ensures MinBarHeight <= BarHeight(w, minDuration, height / (maxDuration - minDuration)) <= height
  {
    var coeff := height / (maxDuration - minDuration);
    assert coeff >= 0.0;
    BarHeightMonotone(w, maxDuration, minDuration, coeff);
    BarHeightExtremes(minDuration, maxDuration, height);
  }

  /// The rectangle of one bar, in device pixels: it stands on the bottom edge,
  /// starts at the scaled block start and is never narrower than one pixel.
  function BarRect(item: Item, layout: BarLayout): (r: Rect)
    ensures r.Bottom() == layout.bottom
    ensures r.height == BarHeight(item.width, layout.minDuration, layout.coeff) >= MinBarHeight
    ensures r.left == item.left * layout.scale
    ensures r.width == Max(item.width * layout.scale, 1.0)
  {
    var h := BarHeight(item.width, layout.minDuration, layout.coeff);
    Rect(item.left * layout.scale, layout.bottom - h, Max(item.width * layout.scale, 1.0), h)
  }

  /// Hue of a bar of height `h` on a track `height` pixels high: 0.35 (green)
  /// for a flat bar, falling towards 0 (red) as the bar fills the track.
  function Hue(h: real, height: real): (hue: real)
    requires height != 0.0
    ensures h == 0.0 ==> hue == 0.35
    ensures h == height ==> hue == 0.0
  {
    var inv := 1.0 / height;
    assert height * inv == 1.0;
    assert h == height ==> h * inv == 1.0;
    (1.0 - h * inv) * 0.35
  }

  /// Taller bars get a hue no greener than lower ones.
  lemma HueFallsWithHeight(h1: real, h2: real, height: real)
    requires h1 <= h2 && height > 0.0
    ensures Hue(h2, height) <= Hue(h1, height)
    ensures MinBarHeight <= h2 <= height ==> 0.0 <= Hue(h2, height) < 0.35
  {
    var inv := 1.0 / height;
    assert inv > 0.0;
    assert h2 * inv - h1 * inv == (h2 - h1) * inv;
    assert Hue(h2, height) - Hue(h1, height) == -(h2 * inv - h1 * inv) * 0.35;
    assert height * inv == 1.0;
    if MinBarHeight <= h2 <= height {
      assert h2 * inv <= height * inv;
    }
  }

  /// The RGB colour of one bar; `hsv` stands for QColor::fromHsvF(hue, 0.85, 0.85).rgb().
  function BarColor(item: Item, layout: BarLayout, hsv: real -> nat): (c: nat)
    requires layout.height != 0.0
    ensures c < RgbModulus
  {
    hsv(Hue(BarHeight(item.width, layout.minDuration, layout.coeff), layout.height)) % RgbModulus
  }

  function BarColors(items: seq<Item>, layout: BarLayout, hsv: real -> nat): (cs: seq<nat>)
    requires layout.height != 0.0
    ensures |cs| == |items|
    ensures forall k :: 0 <= k < |items| ==> cs[k] == BarColor(items[k], layout, hsv)
  {
    seq(|items|, k requires 0 <= k < |items| => BarColor(items[k], layout, hsv))
  }

  function BarRects(items: seq<Item>, layout: BarLayout): (rs: seq<Rect>)
    ensures |rs| == |items|
    ensures forall k :: 0 <= k < |items| ==> rs[k] == BarRect(items[k], layout)
  {
    seq(|items|, k requires 0 <= k < |items| => BarRect(items[k], layout))
  }

  // ---------------------------------------------------------------------
  // The painter log of the bar loop, and runs of equal colours.

  /// The colour the brush holds before bar `i` is drawn; 0 before the first bar.
  function Prev(cs: seq<nat>, i: nat): (prev: nat)
    requires i <= |cs|
  {
    if i == 0 then 0 else cs[i - 1]
  }

  /// The brush change bar colour `c` needs after a bar of colour `prev`: none if they agree.
  function NewBrush(c: nat, prev: nat): (bs: seq<nat>)
  {
    if c != prev then [BrushAlpha + c] else []
  }

  /// The painter commands of one bar: the brush change, if any, then the rectangle.
  function BarCommands(c: nat, prev: nat, r: Rect): (cmds: seq<PaintCmd>)
  {
    (if c != prev then [SetBrush(BrushAlpha + c)] else []) + [DrawRect(r)]
  }

  /// The painter commands for the first `n` bars with colours `cs` and rectangles `rs`.
  function Commands(cs: seq<nat>, rs: seq<Rect>, n: nat): (cmds: seq<PaintCmd>)
    requires |cs| == |rs| && n <= |cs|
    ensures n <= |cmds| <= 2 * n
    ensures n > 0 ==> cmds[|cmds| - 1] == DrawRect(rs[n - 1])
  {
    if n == 0 then [] else Commands(cs, rs, n - 1) + BarCommands(cs[n - 1], Prev(cs, n - 1), rs[n - 1])
  }

  lemma BarCommandsContents(c: nat, prev: nat, r: Rect)
    ensures Brushes(BarCommands(c, prev, r)) == NewBrush(c, prev)
    ensures Rects(BarCommands(c, prev, r)) == [r]
  {
    if c != prev {
      assert BarCommands(c, prev, r) == [SetBrush(BrushAlpha + c), DrawRect(r)];
      assert BarCommands(c, prev, r)[..1] == [SetBrush(BrushAlpha + c)];
      assert [SetBrush(BrushAlpha + c)][..0] == [];
    } else {
      assert BarCommands(c, prev, r) == [DrawRect(r)];
      assert [DrawRect(r)][..0] == [];
    }
  }

  /// One more bar appends its brush change, if any, and its rectangle.
  lemma CommandsStep(cs: seq<nat>, rs: seq<Rect>, n: nat)
    requires |cs| == |rs| && 0 < n <= |cs|
    ensures Brushes(Commands(cs, rs, n)) == Brushes(Commands(cs, rs, n - 1)) + NewBrush(cs[n - 1], Prev(cs, n - 1))
    ensures Rects(Commands(cs, rs, n)) == Rects(Commands(cs, rs, n - 1)) + [rs[n - 1]]
  {
    BrushesAppend(Commands(cs, rs, n - 1), BarCommands(cs[n - 1], Prev(cs, n - 1), rs[n - 1]));
    RectsAppend(Commands(cs, rs, n - 1), BarCommands(cs[n - 1], Prev(cs, n - 1), rs[n - 1]));
    BarCommandsContents(cs[n - 1], Prev(cs, n - 1), rs[n - 1]);
  }

  /// Each bar of the log is the bar of the corresponding item, in order.
  lemma {:induction false} CommandsRects(cs: seq<nat>, rs: seq<Rect>, n: nat)
    requires |cs| == |rs| && n <= |cs|
    ensures Rects(Commands(cs, rs, n)) == rs[..n]
  {
    if n > 0 {
      CommandsRects(cs, rs, n - 1);
      CommandsStep(cs, rs, n);
      assert rs[..n] == rs[..n - 1] + [rs[n - 1]];
    }
  }

  /// A maximal block of equal consecutive colours.
  datatype Run = Run(color: nat, count: nat)

  /// The runs after one more colour: the last run grows if it has that colour,
  /// otherwise a new run of one starts.
  function Extend(runs: seq<Run>, c: nat): (e: seq<Run>)
    ensures |e| > 0 && e[|e| - 1].color == c
    ensures |runs| <= |e| <= |runs| + 1
  {
    if runs != [] && runs[|runs| - 1].color == c then runs[..|runs| - 1] + [Run(c, runs[|runs| - 1].count + 1)]
    else runs + [Run(c, 1)]
  }

  /// The run-length decomposition of a colour sequence.
  function Runs(cs: seq<nat>): (r: seq<Run>)
    ensures |r| <= |cs| && (|r| == 0 <==> |cs| == 0)
    ensures |cs| > 0 ==> r[|r| - 1].color == cs[|cs| - 1]
  {
    if cs == [] then [] else Extend(Runs(cs[..|cs| - 1]), cs[|cs| - 1])
  }

  lemma RunsSnoc(init: seq<nat>, c: nat)
    ensures Runs(init + [c]) == Extend(Runs(init), c)
  {
    assert (init + [c])[..|init|] == init;
  }

  /// No run is empty and neighbouring runs differ in colour.
  predicate Maximal(runs: seq<Run>)
  {
    && (forall k :: 0 <= k < |runs| ==> runs[k].count > 0)
    && (forall k :: 0 <= k < |runs| - 1 ==> runs[k].color != runs[k + 1].color)
  }

  lemma ExtendMaximal(runs: seq<Run>, c: nat)
    requires Maximal(runs)
    ensures Maximal(Extend(runs, c))
  {
    var e := Extend(runs, c);
    if runs != [] && runs[|runs| - 1].color == c {
      assert e == runs[..|runs| - 1] + [Run(c, runs[|runs| - 1].count + 1)];
    } else {
      assert e == runs + [Run(c, 1)];
    }
    forall k | 0 <= k < |e| - 1
      ensures e[k] == runs[k]
    {
    }
  }

  /// The decomposition is into maximal runs.
  lemma {:induction false} RunsMaximal(cs: seq<nat>)
    ensures Maximal(Runs(cs))
    decreases |cs|
  {
    if cs != [] {
      RunsMaximal(cs[..|cs| - 1]);
      ExtendMaximal(Runs(cs[..|cs| - 1]), cs[|cs| - 1]);
    }
  }

  function Repeat(c: nat, n: nat): (s: seq<nat>)
    ensures |s| == n && forall k :: 0 <= k < n ==> s[k] == c
  {
    seq(n, _ => c)
  }

  /// The colour sequence a list of runs stands for.
  function Expand(runs: seq<Run>): (cs: seq<nat>)
  {
    if runs == [] then []
    else Expand(runs[..|runs| - 1]) + Repeat(runs[|runs| - 1].color, runs[|runs| - 1].count)
  }

  lemma ExpandSnoc(runs: seq<Run>, last: Run)
    ensures Expand(runs + [last]) == Expand(runs) + Repeat(last.color, last.count)
  {
    assert (runs + [last])[..|runs|] == runs;
  }

  lemma ExpandGrowLast(front: seq<Run>, c: nat, k: nat)
    ensures Expand(front + [Run(c, k + 1)]) == Expand(front + [Run(c, k)]) + [c]
  {
    ExpandSnoc(front, Run(c, k + 1));
    ExpandSnoc(front, Run(c, k));
    assert Repeat(c, k + 1) == Repeat(c, k) + [c];
  }

  lemma ExpandNewRun(runs: seq<Run>, c: nat)
    ensures Expand(runs + [Run(c, 1)]) == Expand(runs) + [c]
  {
    ExpandSnoc(runs, Run(c, 1));
    assert Repeat(c, 1) == [c];
  }

  /// Extending the runs by a colour extends what they stand for by that colour.
  lemma ExpandExtend(runs: seq<Run>, c: nat)
    ensures Expand(Extend(runs, c)) == Expand(runs) + [c]
  {
    if runs != [] && runs[|runs| - 1].color == c {
      var front := runs[..|runs| - 1];
      var last := runs[|runs| - 1];
      assert runs == front + [last];
      assert Extend(runs, c) == front + [Run(c, last.count + 1)];
      ExpandGrowLast(front, c, last.count);
    } else {
      assert Extend(runs, c) == runs + [Run(c, 1)];
      ExpandNewRun(runs, c);
    }
  }

  /// Runs loses nothing: expanding the runs gives back the colour sequence.
  lemma {:induction false} RunsExpand(cs: seq<nat>)
    ensures Expand(Runs(cs)) == cs
    decreases |cs|
  {
    if cs != [] {
      var init := cs[..|cs| - 1];
      RunsExpand(init);
      ExpandExtend(Runs(init), cs[|cs| - 1]);
      assert cs == init + [cs[|cs| - 1]];
    }
  }

  /// The brush colour of each run, in order.
  function RunBrushes(runs: seq<Run>): (bs: seq<nat>)
    ensures |bs| == |runs|
    ensures forall k :: 0 <= k < |runs| ==> bs[k] == BrushAlpha + runs[k].color
  {
    seq(|runs|, k requires 0 <= k < |runs| => BrushAlpha + runs[k].color)
  }

  /// A colour equal to the last run's grows that run: no new brush.
  lemma RunBrushesExtendSame(runs: seq<Run>, c: nat)
    requires runs != [] && runs[|runs| - 1].color == c
    ensures RunBrushes(Extend(runs, c)) == RunBrushes(runs)
  {
    assert |runs| > 0;
    var e := Extend(runs, c);
    assert e == runs[..|runs| - 1] + [Run(c, runs[|runs| - 1].count + 1)];
    assert forall k :: 0 <= k < |runs| ==> e[k].color == runs[k].color;
  }

  /// Any other colour starts a new run: one new brush.
  lemma RunBrushesExtendNew(runs: seq<Run>, c: nat)
    requires runs == [] || runs[|runs| - 1].color != c
    ensures RunBrushes(Extend(runs, c)) == RunBrushes(runs) + [BrushAlpha + c]
  {
    assert Extend(runs, c) == runs + [Run(c, 1)];
  }

  /// The brushes one per run would give, less the first when its colour is 0:
  /// the painter starts from previous colour 0, so such a run needs no change.
  function RunBrushesAfterBlack(cs: seq<nat>): (bs: seq<nat>)
  {
    if cs != [] && cs[0] == 0 then RunBrushes(Runs(cs))[1..] else RunBrushes(Runs(cs))
  }

  lemma RunBrushesAfterBlackFirst(c: nat)
    ensures RunBrushesAfterBlack([c]) == NewBrush(c, 0)
  {
    assert [c][..0] == [];
    assert Runs([c]) == [Run(c, 1)];
  }

  lemma RunBrushesAfterBlackSame(init: seq<nat>, c: nat)
    requires init != [] && init[|init| - 1] == c
    ensures RunBrushesAfterBlack(init + [c]) == RunBrushesAfterBlack(init)
  {
    RunsSnoc(init, c);
    RunBrushesExtendSame(Runs(init), c);
    assert (init + [c])[0] == init[0];
  }

  lemma RunBrushesAfterBlackNew(init: seq<nat>, c: nat)
    requires init != [] && init[|init| - 1] != c
    ensures RunBrushesAfterBlack(init + [c]) == RunBrushesAfterBlack(init) + [BrushAlpha + c]
  {
    RunsSnoc(init, c);
    RunBrushesExtendNew(Runs(init), c);
    assert (init + [c])[0] == init[0];
    var b := RunBrushes(Runs(init));
    if init[0] == 0 {
      assert |b| > 0;
      assert (b + [BrushAlpha + c])[1..] == b[1..] + [BrushAlpha + c];
    }
  }

  lemma RunBrushesAfterBlackSnoc(init: seq<nat>, c: nat)
    ensures RunBrushesAfterBlack(init + [c]) ==
      RunBrushesAfterBlack(init) + NewBrush(c, if init == [] then 0 else init[|init| - 1])
  {
    if init == [] {
      assert init + [c] == [c];
      RunBrushesAfterBlackFirst(c);
    } else if init[|init| - 1] == c {
      RunBrushesAfterBlackSame(init, c);
    } else {
      RunBrushesAfterBlackNew(init, c);
    }
  }

  /// The brush changes of the log are exactly one per run of equal colours,
  /// in order, except that a first run of colour 0 gets none (the previous
  /// colour starts at 0).
  lemma {:induction false} CommandsBrushes(cs: seq<nat>, rs: seq<Rect>, n: nat)
    requires |cs| == |rs| && n <= |cs|
    ensures Brushes(Commands(cs, rs, n)) == RunBrushesAfterBlack(cs[..n])
  {
    if n > 0 {
      CommandsBrushes(cs, rs, n - 1);
      CommandsBrushesStep(cs, rs, n);
    } else {
      assert cs[..0] == [];
    }
  }

  /// The induction step of CommandsBrushes: bar `n - 1` extends both sides alike.
  lemma CommandsBrushesStep(cs: seq<nat>, rs: seq<Rect>, n: nat)
    requires |cs| == |rs| && 0 < n <= |cs|
    requires Brushes(Commands(cs, rs, n - 1)) == RunBrushesAfterBlack(cs[..n - 1])
    ensures Brushes(Commands(cs, rs, n)) == RunBrushesAfterBlack(cs[..n])
  {
    var init := cs[..n - 1];
    var prev := Prev(cs, n - 1);
    assert prev == if init == [] then 0 else init[|init| - 1];
    calc {
      Brushes(Commands(cs, rs, n));
      == { CommandsStep(cs, rs, n); }
      RunBrushesAfterBlack(init) + NewBrush(cs[n - 1], prev);
      == { RunBrushesAfterBlackSnoc(init, cs[n - 1]); }
      RunBrushesAfterBlack(init + [cs[n - 1]]);
      == { assert cs[..n] == init + [cs[n - 1]]; }
      RunBrushesAfterBlack(cs[..n]);
    }
  }

  /// The whole log draws every bar in order and changes the brush once per
  /// run of equal colours (once per run after a first black one); so when the
  /// first colour is not 0, brush changes and maximal runs are equally many.
  lemma CommandsContents(cs: seq<nat>, rs: seq<Rect>)
    requires |cs| == |rs|
    ensures Rects(Commands(cs, rs, |cs|)) == rs
    ensures Brushes(Commands(cs, rs, |cs|)) == RunBrushesAfterBlack(cs)
    ensures (cs == [] || cs[0] != 0) ==>
              Brushes(Commands(cs, rs, |cs|)) == RunBrushes(Runs(cs)) &&
              |Brushes(Commands(cs, rs, |cs|))| == |Runs(cs)|
  {
    CommandsBrushes(cs, rs, |cs|);
    CommandsRects(cs, rs, |cs|);
    assert cs[..|cs|] == cs;
    assert rs[..|rs|] == rs;
  }

  /// One pass of the bar loop: the brush change when the colour differs from
  /// the previous bar's, then the bar itself; returns the new previous colour.
  method PaintBar(item: Item, layout: BarLayout, hsv: real -> nat, previousColor: nat)
    returns (cmds: seq<PaintCmd>, color: nat)
    requires layout.height != 0.0
    ensures color == BarColor(item, layout, hsv)
    ensures cmds == BarCommands(color, previousColor, BarRect(item, layout))
  {
    color := BarColor(item, layout, hsv);
    cmds := [];
    if previousColor != color {
      cmds := cmds + [SetBrush(BrushAlpha + color)];
    }
    cmds := cmds + [DrawRect(BarRect(item, layout))];
  }

  // ---------------------------------------------------------------------

  class MinimapItem {
    /// The thread's block list; None stands for a null source pointer.
    var source: Option<seq<Item>>
    var maxDuration: real
    var minDuration: real
    var threadId: ThreadId
    var boundingRect: Rect
    var visible: bool

    /// The bounds always describe the current source.
    ghost predicate Valid()
      reads this
    {
      source.Some? ==>
        && |source.value| > 0
        && maxDuration == MaxDuration(source.value)
        && minDuration == MinDuration(source.value)
    }

    constructor ()
      ensures Valid() && visible
      ensures source == None && maxDuration == 0.0 && minDuration == 0.0 && threadId == 0
      ensures boundingRect == Rect(0.0, 0.0, 0.0, 0.0)
    {
      source := None;
      maxDuration := 0.0;
      minDuration := 0.0;
      threadId := 0;
      boundingRect := Rect(0.0, 0.0, 0.0, 0.0);
      visible := true;
    }

    method SetBoundingRect(r: Rect)
      requires Valid()
      modifies this`boundingRect
      ensures Valid()
      ensures boundingRect == r
    {
      boundingRect := r;
    }

    method Hide()
      modifies this`visible
      ensures !visible
    {
      visible := false;
    }

    /// The bar layout paint derives from the current state.
    function Layout(scale: real): (layout: BarLayout)
      reads this
      requires maxDuration != minDuration
      ensures layout.height == boundingRect.height && layout.bottom == boundingRect.Bottom()
      ensures layout.coeff * (maxDuration - minDuration) == boundingRect.height
      ensures layout.scale == scale && layout.minDuration == minDuration
    {
      var coeff := boundingRect.height / (maxDuration - minDuration);
      assert coeff * (maxDuration - minDuration) == boundingRect.height;
      BarLayout(scale, boundingRect.Bottom(), boundingRect.height, minDuration, coeff)
    }

    /// Installs the block list of thread `id`; a null or empty list clears the
    /// source and hides the item, any other is scanned once for its bounds.
    method SetSource(id: ThreadId, items: Option<seq<Item>>)
      requires Valid()
      modifies this`source, this`threadId, this`maxDuration, this`minDuration, this`visible
      ensures Valid()
      ensures threadId == id
      ensures source == if items.None? || |items.value| == 0 then None else items
      ensures visible == source.Some?
      ensures source.Some? ==>
                maxDuration == MaxDuration(source.value) && minDuration == MinDuration(source.value)
      ensures source.None? ==> maxDuration == old(maxDuration) && minDuration == old(minDuration)
    {
      source := items;
      threadId := id;
      if source.Some? {
        if |source.value| == 0 {
          source := None;
        } else {
          var xs := source.value;
          maxDuration := 0.0;
          minDuration := MinSentinel;
          for i := 0 to |xs|
            invariant source == Some(xs) && threadId == id
            invariant maxDuration == MaxDuration(xs[..i])
            invariant minDuration == MinDuration(xs[..i])
          {
            assert xs[..i + 1][..i] == xs[..i];
            var w := xs[i].width;
            if w > maxDuration {
              maxDuration := xs[i].width;
            }
            if w < minDuration {
              minDuration := w;
            }
          }
          assert xs[..|xs|] == xs;
        }
      }
      if source.None? {
        visible := false;
      } else {
        visible := true;
      }
    }

    /// Paints the bars at window scale `scale`; `hsv` is the colour ramp. The
    /// log is one rectangle per block, in order, with a brush change only
    /// where a bar's colour differs from the previous bar's.
    method Paint(scale: real, hsv: real -> nat) returns (log: seq<PaintCmd>)
      requires source.Some? ==> maxDuration > minDuration && boundingRect.height != 0.0
      ensures source.None? ==> log == []
      ensures source.Some? ==>
        var items := source.value;
        var layout := Layout(scale);
        && log == Commands(BarColors(items, layout, hsv), BarRects(items, layout), |items|)
        && Rects(log) == BarRects(items, layout)
        && Brushes(log) == RunBrushesAfterBlack(BarColors(items, layout, hsv))
    {
      if source.None? {
        return [];
      }
      var layout := Layout(scale);
      var previousColor: nat := 0;
      var items := source.value;
      ghost var cs := BarColors(items, layout, hsv);
      ghost var rs := BarRects(items, layout);
      log := [];
      for i := 0 to |items|
        invariant log == Commands(cs, rs, i)
        invariant previousColor == Prev(cs, i)
      {
        var cmds;
        cmds, previousColor := PaintBar(items[i], layout, hsv, previousColor);
        log := log + cmds;
      }
      CommandsContents(cs, rs);
    }
  }
}
