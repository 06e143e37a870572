/** The arithmetic of a chart's viewport: zoom to the cursor with its clamps against
    the original extent, pan, the scrollbar state derived from the view, and the view
    derived back from a scrollbar value. Limits are exact reals. */
module Viewport {
  import opened Wrappers
  import opened RealArith

  /** One axis's limits, as `ax.get_xlim()` / `ax.get_ylim()` return them. */
  datatype Range = Range(lo: real, hi: real) {
    function Width(): real { hi - lo }
    function Mid(): real { (lo + hi) / 2.0 }
  }

  /** The limits of both axes of a chart. */
  datatype View = View(x: Range, y: Range)

  /** The wheel direction of a scroll event; anything else is ignored. */
  datatype Button = Up | Down | Other

  /** The state the chart writes into one QScrollBar. */
  datatype Bar = Bar(value: int, page: int, enabled: bool)

  const ZoomFactor: real := 1.5
  /** Zoom-out may exceed the original width by at most 10%. */
  const ZoomOutLimit: real := 1.1
  /** Zoom-in may not go below 1% of the original width. */
  const ZoomInLimit: real := 0.01
  /** Both scrollbars run over 0..1000. */
  const BarMax: int := 1000

  /** The factor by which the wheel scales the width and height. */
  function Scale(b: Button): (s: real)
    requires b != Other
    ensures b == Up ==> s * ZoomFactor == 1.0
    ensures b == Down ==> s == ZoomFactor
    ensures b == Up ==> 0.0 < s < 1.0
    ensures b == Down ==> s > 1.0
  {
    if b == Up then 1.0 / ZoomFactor else ZoomFactor
  }

  /** The new limits of one axis, scaled by `scale` around the cursor coordinate `c` so
      that the cursor keeps its relative position. `None` stands for limits that are not
      finite numbers: dividing by a zero width yields NaN, which `set_xlim` refuses. */
  function ZoomToCursor(cur: Range, c: real, scale: real): (r: Option<Range>)
    ensures r.None? <==> cur.Width() == 0.0
    ensures r.Some? ==> r.value.Width() == cur.Width() * scale
  {
    if cur.Width() == 0.0 then None
    else
      var w := cur.Width() * scale;
      var rel := (cur.hi - c) / cur.Width();
      Some(Range(c - w * (1.0 - rel), c + w * rel))
  }

  /** One axis of `on_scroll`: the cursor-centred range, then, when original limits
      exist, the zoom-out snap to the original and the zoom-in minimum width, which is
      recentred at the midpoint of the computed range. */
  function ZoomAxis(orig: Option<Range>, cur: Range, c: real, b: Button): Option<Range>
    requires b != Other
  {
    var s := Scale(b);
    var newWidth := cur.Width() * s;
    var r := ZoomToCursor(cur, c, s);
    if orig.None? then r
    else if b == Down then
      if newWidth > orig.value.Width() * ZoomOutLimit then Some(orig.value) else r
    else
      var minWidth := orig.value.Width() * ZoomInLimit;
      if newWidth < minWidth && r.Some? then
        Some(Range(r.value.Mid() - minWidth / 2.0, r.value.Mid() + minWidth / 2.0))
      else r
  }

  /** Zoom to point: the cursor's relative position (distance to the upper limit over
      the width) is the same before and after. */
  lemma ZoomKeepsCursor(cur: Range, c: real, scale: real)
    requires cur.Width() != 0.0 && scale > 0.0
    ensures ZoomToCursor(cur, c, scale).Some?
    ensures var r := ZoomToCursor(cur, c, scale).value;
            (r.hi - c) / r.Width() == (cur.hi - c) / cur.Width()
  {
    var w := cur.Width() * scale;
    var rel := (cur.hi - c) / cur.Width();
    var r := ZoomToCursor(cur, c, scale).value;
    assert r.hi - c == w * rel;
    assert w != 0.0;
    assert (w * rel) / w == rel;
  }

  /** Zooming in and then out again at the same cursor restores the limits exactly
      (when no clamp applies). */
  lemma ZoomInThenOut(cur: Range, c: real)
    requires cur.Width() != 0.0
    ensures ZoomToCursor(cur, c, Scale(Up)).Some?
    ensures ZoomToCursor(ZoomToCursor(cur, c, Scale(Up)).value, c, Scale(Down)) == Some(cur)
  {
    var s := Scale(Up);
    var w := cur.Width();
    var rel := (cur.hi - c) / w;
    var mid := ZoomToCursor(cur, c, s).value;
    assert mid.hi - c == w * s * rel;
    assert mid.Width() == w * s;
    var rel' := (mid.hi - c) / mid.Width();
    assert rel' == rel by {
      assert (w * s * rel) / (w * s) == rel;
    }
    var back := ZoomToCursor(mid, c, Scale(Down)).value;
    assert w * s * ZoomFactor == w;
    assert back.lo == c - w * (1.0 - rel);
    assert back.hi == c + w * rel;
    assert c + w * rel == cur.hi;
    assert c - w * (1.0 - rel) == cur.lo;
  }

  /** The zoom-out clamp: with original limits, a zoom-out that would exceed 110% of the
      original width snaps the axis exactly to the original limits; otherwise the new
      width is at most 110% of the original. */
  lemma ZoomOutClamp(orig: Range, cur: Range, c: real)
    ensures var r := ZoomAxis(Some(orig), cur, c, Down);
            (cur.Width() * ZoomFactor > orig.Width() * ZoomOutLimit ==> r == Some(orig)) &&
            (cur.Width() * ZoomFactor <= orig.Width() * ZoomOutLimit ==> r == ZoomToCursor(cur, c, ZoomFactor)) &&
            (r.Some? && orig.Width() >= 0.0 ==> r.value.Width() <= orig.Width() * ZoomOutLimit)
  {
  }

  /** The zoom-in clamp: with original limits, the new width is never below 1% of the
      original width; when the clamp applies the axis is exactly that wide and centred
      at the midpoint of the range the zoom computed. */
  lemma ZoomInClamp(orig: Range, cur: Range, c: real)
    ensures var r := ZoomAxis(Some(orig), cur, c, Up);
            var z := ZoomToCursor(cur, c, Scale(Up));
            (r.Some? ==> r.value.Width() >= orig.Width() * ZoomInLimit) &&
            (r.Some? && cur.Width() * Scale(Up) < orig.Width() * ZoomInLimit ==>
               r.value.Width() == orig.Width() * ZoomInLimit && r.value.Mid() == z.value.Mid()) &&
            (cur.Width() * Scale(Up) >= orig.Width() * ZoomInLimit ==> r == z)
  {
  }

  /** The extent the clamps aim at: the width is between 1% and 110% of a positive
      original width. */
  predicate WithinZoomLimits(orig: Range, cur: Range)
  {
    orig.Width() > 0.0 &&
    orig.Width() * ZoomInLimit <= cur.Width() <= orig.Width() * ZoomOutLimit
  }

  /** A zoom step keeps a view that is within the limits within them, with finite
      limits. */
  lemma ZoomPreservesLimits(orig: Range, cur: Range, c: real, b: Button)
    requires b != Other
    requires WithinZoomLimits(orig, cur)
    ensures ZoomAxis(Some(orig), cur, c, b).Some?
    ensures WithinZoomLimits(orig, ZoomAxis(Some(orig), cur, c, b).value)
  {
    if b == Up {
      ZoomInClamp(orig, cur, c);
    } else {
      ZoomOutClamp(orig, cur, c);
    }
  }

  /** `on_motion`: both limits move by the same delta, against the drag direction. */
  function Pan(cur: Range, d: real): (r: Range)
    ensures r.Width() == cur.Width()
    ensures r.Mid() == cur.Mid() - d
  {
    Range(cur.lo - d, cur.hi - d)
  }

  /** Python's `int()` on a float: truncation toward zero. */
  function Trunc(r: real): (n: int)
    ensures 0.0 <= r ==> 0 <= n && n as real <= r < n as real + 1.0
    ensures r < 0.0 ==> n <= 0 && n as real - 1.0 < r <= n as real
  {
    if r >= 0.0 then r.Floor else -((-r).Floor)
  }

  /** `QScrollBar.setValue` keeps the value within the bar's range 0..1000. */
  function Bound(v: int): (b: int)
    ensures 0 <= b <= BarMax
    ensures 0 <= v <= BarMax ==> b == v
    ensures v < 0 ==> b == 0
    ensures v > BarMax ==> b == BarMax
  {
    if v < 0 then 0 else if v > BarMax then BarMax else v
  }

  /** The untruncated horizontal scrollbar value of `update_scrollbars`. */
  function HValue(orig: Range, cur: Range): real
    requires orig.Width() != cur.Width()
  {
    (cur.lo - orig.lo) / (orig.Width() - cur.Width()) * 1000.0
  }

  /** The untruncated vertical scrollbar value: measured from the top of the original
      extent, because the bar grows downwards and the data upwards. */
  function VValue(orig: Range, cur: Range): real
    requires orig.Width() != cur.Width()
  {
    (orig.hi - cur.hi) / (orig.Width() - cur.Width()) * 1000.0
  }

  /** Whether `update_scrollbars` enables the bar of an axis. */
  predicate BarEnabled(orig: Range, cur: Range)
  {
    orig.Width() > 0.0 && cur.Width() > 0.0 && orig.Width() - cur.Width() > 0.0
  }

  /** `update_scrollbars` for the horizontal bar. */
  function HorizontalBar(prev: Bar, orig: Range, cur: Range): Bar
  {
    if BarEnabled(orig, cur) then
      Bar(Bound(Trunc(HValue(orig, cur))), Trunc(cur.Width() / orig.Width() * 1000.0), true)
    else prev.(enabled := false)
  }

  /** `update_scrollbars` for the vertical bar. */
  function VerticalBar(prev: Bar, orig: Range, cur: Range): Bar
  {
    if BarEnabled(orig, cur) then
      Bar(Bound(Trunc(VValue(orig, cur))), Trunc(cur.Width() / orig.Width() * 1000.0), true)
    else prev.(enabled := false)
  }

  /** The page size of an enabled bar is the share of the original extent on screen, in
      thousandths, so it lies in 0..999; a disabled bar keeps its value and page. */
  lemma BarPage(prev: Bar, orig: Range, cur: Range)
    ensures HorizontalBar(prev, orig, cur).enabled == VerticalBar(prev, orig, cur).enabled == BarEnabled(orig, cur)
    ensures BarEnabled(orig, cur) ==>
              HorizontalBar(prev, orig, cur).page == VerticalBar(prev, orig, cur).page &&
              0 <= HorizontalBar(prev, orig, cur).page < BarMax
    ensures !BarEnabled(orig, cur) ==>
              HorizontalBar(prev, orig, cur).value == VerticalBar(prev, orig, cur).value == prev.value &&
              HorizontalBar(prev, orig, cur).page == VerticalBar(prev, orig, cur).page == prev.page
  {
    if BarEnabled(orig, cur) {
      Fraction(cur.Width(), orig.Width());
    }
  }

  /** A view inside its original extent puts the untruncated value in 0..1000, so the
      bar shows exactly its truncation. */
  lemma BarValueInside(prev: Bar, orig: Range, cur: Range)
    requires BarEnabled(orig, cur)
    requires orig.lo <= cur.lo && cur.hi <= orig.hi
    ensures 0.0 <= HValue(orig, cur) <= 1000.0 && 0.0 <= VValue(orig, cur) <= 1000.0
    ensures HorizontalBar(prev, orig, cur).value == Trunc(HValue(orig, cur))
    ensures VerticalBar(prev, orig, cur).value == Trunc(VValue(orig, cur))
  {
    var room := orig.Width() - cur.Width();
    Fraction(cur.lo - orig.lo, room);
    Fraction(orig.hi - cur.hi, room);
  }

  /** `h_scroll_plot`: the horizontal limits for a bar value, keeping the current width. */
  function ScrolledX(orig: Range, cur: Range, v: real): (r: Range)
    ensures r.Width() == cur.Width()
  {
    var start := orig.lo + (v / 1000.0) * (orig.Width() - cur.Width());
    Range(start, start + cur.Width())
  }

  /** `v_scroll_plot`: the vertical limits for a bar value, measured from the top of the
      original extent, keeping the current height. */
  function ScrolledY(orig: Range, cur: Range, v: real): (r: Range)
    ensures r.Width() == cur.Width()
  {
    var start := orig.hi - (v / 1000.0) * (orig.Width() - cur.Width()) - cur.Width();
    Range(start, start + cur.Width())
  }

  /** Feeding the untruncated value of `update_scrollbars` back to the scroll handlers
      reproduces the current limits exactly. */
  lemma ScrollRoundTrip(orig: Range, cur: Range)
    requires orig.Width() != cur.Width()
    ensures ScrolledX(orig, cur, HValue(orig, cur)) == cur
    ensures ScrolledY(orig, cur, VValue(orig, cur)) == cur
  {
    var room := orig.Width() - cur.Width();
    assert (HValue(orig, cur) / 1000.0) * room == cur.lo - orig.lo by {
      assert HValue(orig, cur) / 1000.0 == (cur.lo - orig.lo) / room;
    }
    assert (VValue(orig, cur) / 1000.0) * room == orig.hi - cur.hi by {
      assert VValue(orig, cur) / 1000.0 == (orig.hi - cur.hi) / room;
    }
  }

  /** The other direction: the value derived from the limits a bar value produced is that
      bar value. */
  lemma ValueRoundTrip(orig: Range, cur: Range, v: real)
    requires orig.Width() != cur.Width()
    ensures HValue(orig, ScrolledX(orig, cur, v)) == v
    ensures VValue(orig, ScrolledY(orig, cur, v)) == v
  {
    var room := orig.Width() - cur.Width();
    var x := ScrolledX(orig, cur, v);
    assert x.lo - orig.lo == (v / 1000.0) * room;
    assert ((v / 1000.0) * room) / room == v / 1000.0;
    var y := ScrolledY(orig, cur, v);
    assert orig.hi - y.hi == (v / 1000.0) * room;
  }

  /** Value 0 puts the view at the left (or top) edge of the original extent and value
      1000 at the right (or bottom) edge. */
  lemma ScrollEnds(orig: Range, cur: Range)
    ensures ScrolledX(orig, cur, 0.0).lo == orig.lo && ScrolledX(orig, cur, 1000.0).hi == orig.hi
    ensures ScrolledY(orig, cur, 0.0).hi == orig.hi && ScrolledY(orig, cur, 1000.0).lo == orig.lo
  {
  }

  /** Every bar value in 0..1000 keeps a view narrower than the original inside it. */
  lemma ScrollInside(orig: Range, cur: Range, v: real)
    requires cur.Width() < orig.Width()
    requires 0.0 <= v <= 1000.0
    ensures orig.lo <= ScrolledX(orig, cur, v).lo && ScrolledX(orig, cur, v).hi <= orig.hi
    ensures orig.lo <= ScrolledY(orig, cur, v).lo && ScrolledY(orig, cur, v).hi <= orig.hi
  {
    var room := orig.Width() - cur.Width();
    var t := v / 1000.0;
    MulAtMost(0.0, t, room);
    MulAtMost(t, 1.0, room);
  }
}
