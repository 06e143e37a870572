/** One chart tab (`PlotWidget`): the axes' current and original limits, the two
    scrollbars, the pan gesture, the plotted instruments with their bubble encoding, and
    the per-point edge styling that the highlight rewrites in place. */
module Chart {
  import opened Wrappers
  import opened Frames
  import opened Viewport
  import opened Bubbles
  import opened Preparation
  import opened Highlight

  function Symbols(rows: seq<Instrument>): (r: seq<Cell>)
    ensures |r| == |rows| && forall i :: 0 <= i < |rows| ==> r[i] == rows[i].symbol
  {
    seq(|rows|, i requires 0 <= i < |rows| => rows[i].symbol)
  }

  function Turnovers(rows: seq<Instrument>): (r: seq<real>)
    ensures |r| == |rows| && forall i :: 0 <= i < |rows| ==> r[i] == rows[i].turnover
  {
    seq(|rows|, i requires 0 <= i < |rows| => rows[i].turnover)
  }

  function Changes(rows: seq<Instrument>): (r: seq<real>)
    ensures |r| == |rows| && forall i :: 0 <= i < |rows| ==> r[i] == rows[i].change
  {
    seq(|rows|, i requires 0 <= i < |rows| => rows[i].change)
  }

  function OrigX(o: Option<View>): Option<Range>
  {
    if o.Some? then Some(o.value.x) else None
  }

  function OrigY(o: Option<View>): Option<Range>
  {
    if o.Some? then Some(o.value.y) else None
  }

  /** What a wheel event does to the limits: nothing (no cursor, another button, or NaN
      x limits), only the x limits when the y limits come out NaN (`set_ylim` then raises
      after `set_xlim` succeeded), or both. */
  datatype ZoomOutcome = Ignored | OnlyX(x: Range) | Both(view: View)

  function Zoom(orig: Option<View>, v: View, cursor: Option<(real, real)>, b: Button): (r: ZoomOutcome)
    ensures r.OnlyX? ==> v.y.Width() == 0.0
    ensures r.Both? ==> WithinZoomLimitsBoth(orig, v) ==> WithinZoomLimitsBoth(orig, r.view)
  {
    if cursor.None? || b == Other then Ignored
    else
      var nx := ZoomAxis(OrigX(orig), v.x, cursor.value.0, b);
      var ny := ZoomAxis(OrigY(orig), v.y, cursor.value.1, b);
      if nx.None? then Ignored
      else if ny.None? then
        assert v.y.Width() == 0.0 by {
          if v.y.Width() != 0.0 { ZoomNotNaN(OrigY(orig), v.y, cursor.value.1, b); }
        }
        OnlyX(nx.value)
      else
        assert WithinZoomLimitsBoth(orig, v) ==> WithinZoomLimitsBoth(orig, View(nx.value, ny.value)) by {
          if WithinZoomLimitsBoth(orig, v) {
            ZoomPreservesLimits(orig.value.x, v.x, cursor.value.0, b);
            ZoomPreservesLimits(orig.value.y, v.y, cursor.value.1, b);
          }
        }
        Both(View(nx.value, ny.value))
  }

  /** Both axes have original limits and are between 1% and 110% of them. */
  predicate WithinZoomLimitsBoth(orig: Option<View>, v: View)
  {
    orig.Some? && WithinZoomLimits(orig.value.x, v.x) && WithinZoomLimits(orig.value.y, v.y)
  }

  /** A zero-width axis comes out NaN unless a zoom-out snaps it to an inverted original
      (one whose width is negative, so that 0 exceeds 110% of it). */
  lemma ZoomNaN(orig: Option<Range>, cur: Range, c: real, b: Button)
    requires b != Other && cur.Width() == 0.0
    requires orig.None? || b == Up || orig.value.Width() >= 0.0
    ensures ZoomAxis(orig, cur, c, b).None?
  {
    assert ZoomToCursor(cur, c, Scale(b)).None?;
    assert cur.Width() * Scale(b) == 0.0;
  }

  /** The outcome of a wheel step read forward: with a cursor and the up or down button,
      both axes zoom when both have a width; a zero-height view changes only x and a
      zero-width one changes nothing, unless a zoom-out snaps that axis to an inverted
      original. */
  lemma ZoomOutcomes(orig: Option<View>, v: View, cursor: Option<(real, real)>, b: Button)
    requires cursor.Some? && b != Other
    ensures v.x.Width() != 0.0 && v.y.Width() != 0.0 ==> Zoom(orig, v, cursor, b).Both?
    ensures (v.x.Width() != 0.0 && v.y.Width() == 0.0 &&
             (orig.None? || b == Up || orig.value.y.Width() >= 0.0)) ==> Zoom(orig, v, cursor, b).OnlyX?
    ensures (v.x.Width() == 0.0 &&
             (orig.None? || b == Up || orig.value.x.Width() >= 0.0)) ==> Zoom(orig, v, cursor, b).Ignored?
  {
    if v.x.Width() != 0.0 {
      ZoomNotNaN(OrigX(orig), v.x, cursor.value.0, b);
      if v.y.Width() != 0.0 {
        ZoomNotNaN(OrigY(orig), v.y, cursor.value.1, b);
      } else if orig.None? || b == Up || orig.value.y.Width() >= 0.0 {
        ZoomNaN(OrigY(orig), v.y, cursor.value.1, b);
      }
    } else if orig.None? || b == Up || orig.value.x.Width() >= 0.0 {
      ZoomNaN(OrigX(orig), v.x, cursor.value.0, b);
    }
  }

  /** A zoomed axis only comes out NaN when its current width is zero. */
  lemma ZoomNotNaN(orig: Option<Range>, cur: Range, c: real, b: Button)
    requires b != Other && cur.Width() != 0.0
    ensures ZoomAxis(orig, cur, c, b).Some?
  {
  }

  /** The loop of `plot_bubble_chart` that lists the face colours, point by point. */
  method FaceColourList(changes: seq<real>) returns (fs: seq<Colour>)
    ensures fs == FaceColours(changes)
  {
    fs := [];
    var i := 0;
    while i < |changes|
      invariant 0 <= i <= |changes| && |fs| == i
      invariant forall k :: 0 <= k < i ==> fs[k] == FaceColour(changes[k])
    {
      fs := fs + [FaceColour(changes[i])];
      i := i + 1;
    }
  }

  /** The loop of `plot_bubble_chart` that decides, row by row, which points get a label. */
  method LabelFlags(t: seq<real>) returns (ls: seq<bool>)
    ensures ls == Labelled(t)
  {
    var n := |t|;
    var q := if n > LabelAllUpTo then Quantile75(t) else 0.0;
    ls := [];
    var i := 0;
    while i < n
      invariant 0 <= i <= n && |ls| == i
      invariant forall k :: 0 <= k < i ==> ls[k] == (n <= LabelAllUpTo || t[k] > q)
    {
      ls := ls + [n <= LabelAllUpTo || t[i] > q];
      i := i + 1;
    }
  }

  /** The bubble encoding of the prepared rows: sizes, face colours and label flags. */
  method Encoding(rows: seq<Instrument>) returns (sizes: seq<real>, faces: seq<Colour>, labels: seq<bool>)
    ensures sizes == Sizes(Turnovers(rows))
    ensures faces == FaceColours(Changes(rows))
    ensures labels == Labelled(Turnovers(rows))
  {
    sizes := Sizes(Turnovers(rows));
    faces := FaceColourList(Changes(rows));
    labels := LabelFlags(Turnovers(rows));
  }

  class PlotWidget {
    /** `original_xlim` and `original_ylim`, always assigned together. */
    var original: Option<View>
    /** The current limits of the axes. */
    var view: View
    var hBar: Bar
    var vBar: Bar
    var isPanning: bool
    /** `pan_start_point`: the data coordinates of the press, either of which may be None. */
    var panStart: Option<(Option<real>, Option<real>)>
    /** The prepared rows of the last successful plot. */
    var df: Option<seq<Instrument>>
    /** Whether a scatter plot is on the axes. */
    var hasScatter: bool
    var sizes: seq<real>
    var faces: seq<Colour>
    var labels: seq<bool>
    var edges: array<Colour>
    var widths: array<real>
    /** `highlighted_info`. */
    var highlighted: Option<Saved>
    /** The edge styling the scatter was created with. */
    ghost var plain: Style

    /** The scatter's arrays have one entry per plotted row, and they differ from the
        styling the scatter was created with in at most the recorded point. */
    ghost predicate Valid()
      reads this, edges, widths
    {
      (hasScatter ==>
         df.Some? && edges.Length == |df.value| && widths.Length == |df.value| &&
         |faces| == |df.value| &&
         Consistent(Style(edges[..], widths[..], highlighted), plain)) &&
      (!hasScatter ==> highlighted.None?)
    }

    function Styling(): Style
      reads this, edges, widths
    {
      Style(edges[..], widths[..], highlighted)
    }

    /** A fresh chart: axes 0..1 both ways, both bars at 500 with page 100, nothing plotted. */
    constructor ()
      ensures Valid()
      ensures original.None? && view == View(Range(0.0, 1.0), Range(0.0, 1.0))
      ensures hBar == Bar(500, 100, true) && vBar == Bar(500, 100, true)
      ensures !isPanning && panStart.None? && df.None? && !hasScatter && highlighted.None?
    {
      original := None;
      view := View(Range(0.0, 1.0), Range(0.0, 1.0));
      hBar := Bar(500, 100, true);
      vBar := Bar(500, 100, true);
      isPanning := false;
      panStart := None;
      df := None;
      hasScatter := false;
      sizes := [];
      faces := [];
      labels := [];
      edges := new Colour[0];
      widths := new real[0];
      highlighted := None;
      plain := Style([], [], None);
    }

    /** `update_scrollbars`: once original limits exist, each bar is derived from its axis. */
    method UpdateScrollbars()
      modifies this`hBar, this`vBar
      ensures original.None? ==> hBar == old(hBar) && vBar == old(vBar)
      ensures original.Some? ==>
                hBar == HorizontalBar(old(hBar), original.value.x, view.x) &&
                vBar == VerticalBar(old(vBar), original.value.y, view.y)
    {
      if original.Some? {
        hBar := HorizontalBar(hBar, original.value.x, view.x);
        vBar := VerticalBar(vBar, original.value.y, view.y);
      }
    }

    /** `on_scroll`: zoom about the cursor; the bars follow when both axes were set. */
    method OnScroll(cursor: Option<(real, real)>, b: Button)
      modifies this`view, this`hBar, this`vBar
      ensures Zoom(original, old(view), cursor, b).Ignored? ==>
                view == old(view) && hBar == old(hBar) && vBar == old(vBar)
      ensures Zoom(original, old(view), cursor, b).OnlyX? ==>
                view == old(view).(x := Zoom(original, old(view), cursor, b).x) &&
                hBar == old(hBar) && vBar == old(vBar)
      ensures Zoom(original, old(view), cursor, b).Both? ==>
                view == Zoom(original, old(view), cursor, b).view &&
                (original.Some? ==>
                   hBar == HorizontalBar(old(hBar), original.value.x, view.x) &&
                   vBar == VerticalBar(old(vBar), original.value.y, view.y)) &&
                (original.None? ==> hBar == old(hBar) && vBar == old(vBar))
    {
      if cursor.None? || b == Other {
        return;
      }
      var nx := ZoomAxis(OrigX(original), view.x, cursor.value.0, b);
      var ny := ZoomAxis(OrigY(original), view.y, cursor.value.1, b);
      if nx.None? {
        return;
      }
      view := view.(x := nx.value);
      if ny.None? {
        return;
      }
      view := view.(y := ny.value);
      UpdateScrollbars();
    }

    /** `reset_zoom`: back to the original limits, when there are any. */
    method ResetZoom()
      modifies this`view, this`hBar, this`vBar
      ensures original.None? ==> view == old(view) && hBar == old(hBar) && vBar == old(vBar)
      ensures original.Some? ==>
                view == original.value &&
                hBar == HorizontalBar(old(hBar), view.x, view.x) &&
                vBar == VerticalBar(old(vBar), view.y, view.y)
    {
      if original.Some? {
        view := original.value;
        UpdateScrollbars();
      }
    }

    /** `on_motion`: while panning from a press with both coordinates, shift both axes by
        the distance moved from the press point. */
    method OnMotion(x: Option<real>, y: Option<real>)
      modifies this`view, this`hBar, this`vBar
      ensures var moves := isPanning && panStart.Some? && x.Some? && y.Some? &&
                           panStart.value.0.Some? && panStart.value.1.Some?;
              (!moves ==> view == old(view) && hBar == old(hBar) && vBar == old(vBar)) &&
              (moves ==>
                 view == View(Pan(old(view).x, x.value - panStart.value.0.value),
                              Pan(old(view).y, y.value - panStart.value.1.value)) &&
                 (original.Some? ==>
                    hBar == HorizontalBar(old(hBar), original.value.x, view.x) &&
                    vBar == VerticalBar(old(vBar), original.value.y, view.y)) &&
                 (original.None? ==> hBar == old(hBar) && vBar == old(vBar)))
    {
      if isPanning && panStart.Some? && x.Some? && y.Some? {
        if panStart.value.0.None? || panStart.value.1.None? {
          // the subtraction raises TypeError before any limit is set
          return;
        }
        var dx := x.value - panStart.value.0.value;
        var dy := y.value - panStart.value.1.value;
        view := View(Pan(view.x, dx), Pan(view.y, dy));
        UpdateScrollbars();
      }
    }

    /** `h_scroll_plot`: place the x window at the bar's value, keeping its width, when the
        original extent is wider than the window. */
    method HScrollPlot(value: int)
      modifies this`view
      ensures var moves := original.Some? && original.value.x.Width() > 0.0 &&
                           original.value.x.Width() > old(view).x.Width();
              (moves ==> view == old(view).(x := ScrolledX(original.value.x, old(view).x, value as real))) &&
              (!moves ==> view == old(view))
      ensures view.x.Width() == old(view).x.Width() && view.y == old(view).y
    {
      if original.Some? {
        var o := original.value.x;
        if o.Width() > 0.0 && o.Width() > view.x.Width() {
          view := view.(x := ScrolledX(o, view.x, value as real));
        }
      }
    }

    /** `v_scroll_plot`: the same for the y window, measured from the top. */
    method VScrollPlot(value: int)
      modifies this`view
      ensures var moves := original.Some? && original.value.y.Width() > 0.0 &&
                           original.value.y.Width() > old(view).y.Width();
              (moves ==> view == old(view).(y := ScrolledY(original.value.y, old(view).y, value as real))) &&
              (!moves ==> view == old(view))
      ensures view.y.Width() == old(view).y.Width() && view.x == old(view).x
    {
      if original.Some? {
        var o := original.value.y;
        if o.Width() > 0.0 && o.Width() > view.y.Width() {
          view := view.(y := ScrolledY(o, view.y, value as real));
        }
      }
    }

    /** `highlight_symbol`: with a scatter on the axes, undo the previous highlight and
        mark the first point named `target`; the arrays are updated in place. */
    method HighlightSymbol(target: Option<string>)
      requires Valid()
      modifies this`highlighted, edges, widths
      ensures Valid()
      ensures !hasScatter ==> Styling() == old(Styling())
      ensures hasScatter ==> Styling() == Step(old(Styling()), Symbols(df.value), faces, target)
    {
      if !hasScatter || df.None? {
        return;
      }
      ghost var before := Styling();
      ghost var symbols := Symbols(df.value);
      if highlighted.Some? {
        var sv := highlighted.value;
        if sv.index < edges.Length {
          edges[sv.index] := sv.edge;
          widths[sv.index] := sv.width;
        }
        highlighted := None;
      }
      assert Styling() == Restore(before);
      if target.Some? && target.value != "" {
        var m := FirstMatch(Symbols(df.value), target.value);
        if m.Some? {
          var i := m.value;
          highlighted := Some(Saved(i, edges[i], widths[i]));
          edges[i] := HighlightEdge(faces[i]);
          widths[i] := HighlightWidth;
        }
      }
      StepConsistent(before, plain, symbols, faces, target);
    }

    /** `on_click`: the left button starts a pan at the press point, first clearing the
        highlight when the press is on the axes but off every bubble (with no scatter yet
        the hit test raises and nothing happens); the middle button resets the zoom. */
    method OnClick(button: int, inAxes: bool, hit: bool, x: Option<real>, y: Option<real>)
      requires Valid()
      modifies this`isPanning, this`panStart, this`highlighted, edges, widths, this`view, this`hBar, this`vBar
      ensures Valid()
      ensures button == 1 && inAxes && !hasScatter ==>
                isPanning == old(isPanning) && panStart == old(panStart) && view == old(view)
      ensures button == 1 && (!inAxes || hasScatter) ==>
                isPanning && panStart == Some((x, y)) && view == old(view)
      ensures button == 1 && inAxes && hasScatter && !hit ==>
                Styling() == Restore(old(Styling())) && Styling().saved.None?
      ensures (button != 1 || !inAxes || hit || !hasScatter) ==> Styling() == old(Styling())
      ensures button == 2 && original.Some? ==>
                view == original.value &&
                hBar == HorizontalBar(old(hBar), view.x, view.x) &&
                vBar == VerticalBar(old(vBar), view.y, view.y)
      ensures button == 2 && original.None? ==> hBar == old(hBar) && vBar == old(vBar)
      ensures button != 1 ==> isPanning == old(isPanning) && panStart == old(panStart)
      ensures button != 2 ==> hBar == old(hBar) && vBar == old(vBar)
      ensures button != 2 || original.None? ==> view == old(view)
    {
      if button == 1 {
        if inAxes && !hasScatter {
          return;
        }
        if inAxes && !hit {
          HighlightSymbol(None);
        }
        isPanning := true;
        panStart := Some((x, y));
      } else if button == 2 {
        ResetZoom();
      }
    }

    /** `on_release`: releasing the left button ends the pan. */
    method OnRelease(button: int)
      modifies this`isPanning
      ensures isPanning == (old(isPanning) && button != 1)
    {
      if button == 1 {
        isPanning := false;
      }
    }

    /** `plot_bubble_chart`: clear the axes and forget the scatter and its highlight; with
        usable rows, plot them (`ShowRows`). An empty result leaves the fresh axes at 0..1
        and the original limits and stored rows as they were. */
    method PlotBubbleChart(data: Option<Frame>, fit: View, turnoverDraw: nat -> real, changeDraw: nat -> real)
      requires data.Some? ==> data.value.WellFormed()
      modifies this
      ensures Valid() && highlighted.None?
      ensures var rows := if data.None? || data.value.Empty() then [] else PrepareData(data.value, turnoverDraw, changeDraw);
              (rows == [] ==>
                 !hasScatter && view == View(Range(0.0, 1.0), Range(0.0, 1.0)) &&
                 original == old(original) && df == old(df) && hBar == old(hBar) && vBar == old(vBar)) &&
              (rows != [] ==> Shows(rows, fit, old(hBar), old(vBar)))
      ensures fresh(edges) && fresh(widths)
      ensures isPanning == old(isPanning) && panStart == old(panStart)
    {
      hasScatter := false;
      highlighted := None;
      view := View(Range(0.0, 1.0), Range(0.0, 1.0));
      edges := new Colour[0];
      widths := new real[0];
      if data.None? || data.value.Empty() {
        return;
      }
      var rows := PrepareData(data.value, turnoverDraw, changeDraw);
      if rows != [] {
        ShowRows(rows, fit);
      }
    }

    /** The chart after plotting `rows` on axes fitted to `fit`, with bars `h` and `v`
        before. */
    ghost predicate Shows(rows: seq<Instrument>, fit: View, h: Bar, v: Bar)
      reads this, edges, widths
    {
      Placed(rows, Sizes(Turnovers(rows)), FaceColours(Changes(rows)), Labelled(Turnovers(rows)), fit, h, v)
    }

    /** The chart showing `rows` with the given encoding. */
    ghost predicate Placed(rows: seq<Instrument>, sz: seq<real>, fs: seq<Colour>, ls: seq<bool>, fit: View, h: Bar, v: Bar)
      reads this, edges, widths
    {
      hasScatter && df == Some(rows) && view == fit && original == Some(fit) &&
      sizes == sz && faces == fs && labels == ls &&
      edges[..] == seq(|rows|, _ => White) && widths[..] == seq(|rows|, _ => 1.5) &&
      hBar == HorizontalBar(h, fit.x, fit.x) && vBar == VerticalBar(v, fit.y, fit.y)
    }

    /** The plotting part of `plot_bubble_chart` for a non-empty prepared frame: the bubble
        encoding, white edges of width 1.5, and the fitted limits as the original ones. */
    method ShowRows(rows: seq<Instrument>, fit: View)
      requires rows != [] && highlighted.None?
      modifies this
      ensures Valid() && highlighted.None? && Shows(rows, fit, old(hBar), old(vBar))
      ensures fresh(edges) && fresh(widths)
      ensures isPanning == old(isPanning) && panStart == old(panStart)
    {
      var sz, fs, ls := Encoding(rows);
      Place(rows, sz, fs, ls, fit);
    }

    method Place(rows: seq<Instrument>, sz: seq<real>, fs: seq<Colour>, ls: seq<bool>, fit: View)
      requires |fs| == |rows| && highlighted.None?
      modifies this
      ensures Valid() && highlighted.None? && Placed(rows, sz, fs, ls, fit, old(hBar), old(vBar))
      ensures fresh(edges) && fresh(widths)
      ensures isPanning == old(isPanning) && panStart == old(panStart)
    {
      Fit(fit);
      NewScatter(rows, sz, fs, ls);
    }

    /** The fitted limits become the current and the original ones; the bars follow. */
    method Fit(fit: View)
      modifies this`view, this`original, this`hBar, this`vBar
      ensures view == fit && original == Some(fit)
      ensures hBar == HorizontalBar(old(hBar), fit.x, fit.x) && vBar == VerticalBar(old(vBar), fit.y, fit.y)
    {
      view, original := fit, Some(fit);
      UpdateScrollbars();
    }

    /** A new scatter of `rows`: white edges of width 1.5 on every point, nothing
        highlighted. */
    method NewScatter(rows: seq<Instrument>, sz: seq<real>, fs: seq<Colour>, ls: seq<bool>)
      requires |fs| == |rows| && highlighted.None?
      modifies this`df, this`sizes, this`faces, this`labels, this`edges, this`widths, this`plain, this`hasScatter
      ensures Valid() && hasScatter && df == Some(rows) && sizes == sz && faces == fs && labels == ls
      ensures edges[..] == seq(|rows|, _ => White) && widths[..] == seq(|rows|, _ => 1.5)
      ensures fresh(edges) && fresh(widths)
    {
      var n := |rows|;
      df, sizes, faces, labels := Some(rows), sz, fs, ls;
      edges := new Colour[n](_ => White);
      widths := new real[n](_ => 1.5);
      assert edges[..] == seq(n, _ => White);
      assert widths[..] == seq(n, _ => 1.5);
      plain := Style(edges[..], widths[..], None);
      hasScatter := true;
    }
  }
}
