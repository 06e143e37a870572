/** `highlight_symbol` on values: the per-point edge colours and widths of the bubble chart
    together with the record of the one point currently highlighted. */
module Highlight {
  import opened Wrappers
  import opened Frames
  import opened Bubbles

  const HighlightWidth: real := 3.0

  /** What a highlight overwrote: the point and its edge colour and width before. */
  datatype Saved = Saved(index: nat, edge: Colour, width: real)

  /** The styling state of one chart. */
  datatype Style = Style(edges: seq<Colour>, widths: seq<real>, saved: Option<Saved>)
  {
    /** Edge and width arrays describe the same points. */
    predicate Shaped(n: nat)
    {
      |edges| == n && |widths| == n
    }
  }

  /** The edge colour marking a highlighted point: dark green on a green bubble, dark red on
      a red one, yellow otherwise. */
  function HighlightEdge(face: Colour): (r: Colour)
    ensures r == DarkGreen <==> face == Green
    ensures r == DarkRed <==> face == Red
    ensures r == Yellow <==> face != Green && face != Red
  {
    match face
    case Green => DarkGreen
    case Red => DarkRed
    case _ => Yellow
  }

  /** A colour as matplotlib and `QColor.getRgbF` give it: red, green, blue and alpha in
      [0, 1]. */
  datatype Rgba = Rgba(r: real, g: real, b: real, a: real)

  /** The `alpha` the bubble chart is drawn with. */
  const ScatterAlpha: real := 0.7

  /** The red, green and blue of each colour: `#ffffff`, `#44ff44`, `#ff4444`, `#043B04`,
      `#3F0505` and matplotlib's `yellow`. */
  function Rgb(c: Colour): (r: Rgba)
    ensures r.a == 1.0
  {
    match c
    case White => Rgba(1.0, 1.0, 1.0, 1.0)
    case Green => Rgba(68.0 / 255.0, 1.0, 68.0 / 255.0, 1.0)
    case Red => Rgba(1.0, 68.0 / 255.0, 68.0 / 255.0, 1.0)
    case DarkGreen => Rgba(4.0 / 255.0, 59.0 / 255.0, 4.0 / 255.0, 1.0)
    case DarkRed => Rgba(63.0 / 255.0, 5.0 / 255.0, 5.0 / 255.0, 1.0)
    case Yellow => Rgba(1.0, 1.0, 0.0, 1.0)
  }

  /** `get_facecolors()` of the bubble chart: the face colour with the chart's alpha. */
  function ScatterFace(c: Colour): Rgba
  {
    Rgb(c).(a := ScatterAlpha)
  }

  function Abs(x: real): real
  {
    if x < 0.0 then -x else x
  }

  /** `np.isclose(x, y, atol)` with numpy's default relative tolerance 1e-05. */
  predicate Close(x: real, y: real, atol: real)
  {
    Abs(x - y) <= atol + 0.00001 * Abs(y)
  }

  /** `np.allclose` on two colours of four components. */
  predicate AllClose(x: Rgba, y: Rgba, atol: real)
  {
    Close(x.r, y.r, atol) && Close(x.g, y.g, atol) && Close(x.b, y.b, atol) && Close(x.a, y.a, atol)
  }

  /** The edge colour `highlight_symbol` picks as written: the chart's face colour, alpha
      included, against the opaque green and red of `getRgbF`. */
  function HighlightEdgeAsWritten(face: Colour): Colour
  {
    if AllClose(ScatterFace(face), Rgb(Green), 0.1) then DarkGreen
    else if AllClose(ScatterFace(face), Rgb(Red), 0.1) then DarkRed
    else Yellow
  }

  /** The alphas 0.7 and 1.0 are 0.3 apart, more than the tolerance, so as written every
      highlight is yellow, a green bubble's included. */
  lemma AsWrittenAlwaysYellow(face: Colour)
    ensures HighlightEdgeAsWritten(face) == Yellow
    ensures HighlightEdgeAsWritten(Green) != HighlightEdge(Green)
  {
    assert !Close(ScatterAlpha, 1.0, 0.1);
  }

  /** The comparison on red, green and blue only, which is what the dark edge colours are
      evidently meant for. */
  function HighlightEdgeRgb(face: Colour): Colour
  {
    var f := ScatterFace(face).(a := 1.0);
    if AllClose(f, Rgb(Green), 0.1) then DarkGreen
    else if AllClose(f, Rgb(Red), 0.1) then DarkRed
    else Yellow
  }

  /** Comparing without alpha picks exactly the edge colour `HighlightEdge` gives, which the
      rest of this model uses. */
  lemma RgbComparisonIntended(face: Colour)
    ensures HighlightEdgeRgb(face) == HighlightEdge(face)
  {
    match face
    case White =>
      assert !Close(1.0, 68.0 / 255.0, 0.1);
    case Green =>
    case Red =>
      assert !Close(1.0, 68.0 / 255.0, 0.1);
    case DarkGreen =>
      assert !Close(59.0 / 255.0, 1.0, 0.1);
      assert !Close(4.0 / 255.0, 1.0, 0.1);
    case DarkRed =>
      assert !Close(5.0 / 255.0, 1.0, 0.1);
      assert !Close(63.0 / 255.0, 1.0, 0.1);
    case Yellow =>
      assert !Close(1.0, 68.0 / 255.0, 0.1);
  }

  /** Whether a symbol cell equals the text `s` (a number or missing cell never does). */
  predicate SymbolIs(c: Cell, s: string)
  {
    c.Text? && c.text == s
  }

  /** `df.index[df['symbol'] == s][0]`: the first point whose symbol is `s`. */
  function FirstMatch(symbols: seq<Cell>, s: string): (r: Option<nat>)
    ensures r.Some? ==> r.value < |symbols| && SymbolIs(symbols[r.value], s)
    ensures r.Some? ==> forall k :: 0 <= k < r.value ==> !SymbolIs(symbols[k], s)
    ensures r.None? <==> forall k :: 0 <= k < |symbols| ==> !SymbolIs(symbols[k], s)
  {
    if symbols == [] then None
    else if SymbolIs(symbols[0], s) then Some(0)
    else match FirstMatch(symbols[1..], s)
      case None => None
      case Some(j) => Some(j + 1)
  }

  /** Step 1: put back what the previous highlight overwrote (when its index is still a
      point) and forget the record. */
  function Restore(st: Style): Style
  {
    match st.saved
    case None => st
    case Some(sv) =>
      if sv.index < |st.edges| && sv.index < |st.widths| then
        Style(st.edges[sv.index := sv.edge], st.widths[sv.index := sv.width], None)
      else st.(saved := None)
  }

  /** Step 2: remember point `i`'s style and mark it. */
  function Apply(st: Style, faces: seq<Colour>, i: nat): Style
    requires i < |st.edges| && i < |st.widths| && i < |faces|
  {
    Style(st.edges[i := HighlightEdge(faces[i])], st.widths[i := HighlightWidth],
          Some(Saved(i, st.edges[i], st.widths[i])))
  }

  /** Whether a target is given: `None` and the empty text are both falsy in Python. */
  predicate Given(target: Option<string>)
  {
    target.Some? && target.value != ""
  }

  /** One call of `highlight_symbol` on a chart that has points. */
  function Step(st: Style, symbols: seq<Cell>, faces: seq<Colour>, target: Option<string>): Style
    requires st.Shaped(|symbols|) && |faces| == |symbols|
  {
    var r := Restore(st);
    if !Given(target) then r
    else match FirstMatch(symbols, target.value)
      case None => r
      case Some(i) => Apply(r, faces, i)
  }

  /** The chart's state `st` differs from the plain style `base` in at most the one recorded
      point, and the record holds that point's plain style. */
  predicate Consistent(st: Style, base: Style)
  {
    base.saved.None? && st.Shaped(|base.edges|) && base.Shaped(|base.edges|) &&
    match st.saved
    case None => st.edges == base.edges && st.widths == base.widths
    case Some(sv) =>
      sv.index < |base.edges| &&
      sv.edge == base.edges[sv.index] && sv.width == base.widths[sv.index] &&
      (forall k :: 0 <= k < |base.edges| && k != sv.index ==>
         st.edges[k] == base.edges[k] && st.widths[k] == base.widths[k])
  }

  /** Restoring a consistent state gives back the plain style exactly. */
  lemma RestoreExact(st: Style, base: Style)
    requires Consistent(st, base)
    ensures Restore(st) == base
  {
    if st.saved.Some? {
      var sv := st.saved.value;
      assert st.edges[sv.index := sv.edge] == base.edges;
      assert st.widths[sv.index := sv.width] == base.widths;
    }
  }

  /** Every call keeps the chart consistent with its plain style. */
  lemma StepConsistent(st: Style, base: Style, symbols: seq<Cell>, faces: seq<Colour>, target: Option<string>)
    requires Consistent(st, base) && |symbols| == |base.edges| && |faces| == |symbols|
    ensures Consistent(Step(st, symbols, faces, target), base)
  {
    RestoreExact(st, base);
  }

  /** Hence at most one point ever shows a style other than its plain one. */
  lemma AtMostOneHighlighted(st: Style, base: Style, i: nat, j: nat)
    requires Consistent(st, base) && i < |base.edges| && j < |base.edges|
    requires st.edges[i] != base.edges[i] || st.widths[i] != base.widths[i]
    requires st.edges[j] != base.edges[j] || st.widths[j] != base.widths[j]
    ensures i == j && st.saved.Some? && st.saved.value.index == i
  {
  }

  /** `highlight_symbol(None)` after `highlight_symbol(S)` puts back exactly the style the
      chart had before the first call's own highlighting and clears the record; from the
      plain style it gives back the plain style. */
  lemma ClearUndoesHighlight(st: Style, symbols: seq<Cell>, faces: seq<Colour>, s: string)
    requires st.Shaped(|symbols|) && |faces| == |symbols|
    ensures var once := Step(st, symbols, faces, Some(s));
            once.Shaped(|symbols|) &&
            Step(once, symbols, faces, None) == Restore(st) &&
            Restore(st).saved.None?
    ensures st.saved.None? ==> Step(Step(st, symbols, faces, Some(s)), symbols, faces, None) == st
  {
    var r := Restore(st);
    if Given(Some(s)) && FirstMatch(symbols, s).Some? {
      var i := FirstMatch(symbols, s).value;
      assert r.edges[i := HighlightEdge(faces[i])][i := r.edges[i]] == r.edges;
      assert r.widths[i := HighlightWidth][i := r.widths[i]] == r.widths;
    }
  }

  /** The highlight goes to the first point named `s`: dark green, dark red or yellow by its
      face colour, width 3, the previous highlight undone; every other point keeps the style
      it has once the previous highlight is undone. */
  lemma HighlightTarget(st: Style, symbols: seq<Cell>, faces: seq<Colour>, s: string)
    requires st.Shaped(|symbols|) && |faces| == |symbols| && s != ""
    requires FirstMatch(symbols, s).Some?
    ensures var i := FirstMatch(symbols, s).value;
            var r := Step(st, symbols, faces, Some(s));
            var plain := Restore(st);
            SymbolIs(symbols[i], s) &&
            (forall k :: 0 <= k < i ==> !SymbolIs(symbols[k], s)) &&
            r.edges[i] == HighlightEdge(faces[i]) && r.widths[i] == HighlightWidth &&
            r.saved == Some(Saved(i, plain.edges[i], plain.widths[i])) &&
            (forall k :: 0 <= k < |symbols| && k != i ==>
               r.edges[k] == plain.edges[k] && r.widths[k] == plain.widths[k])
  {
  }

  /** Calling `highlight_symbol` twice with the same argument leaves the state of one call. */
  lemma StepIdempotent(st: Style, symbols: seq<Cell>, faces: seq<Colour>, target: Option<string>)
    requires st.Shaped(|symbols|) && |faces| == |symbols|
    ensures var once := Step(st, symbols, faces, target);
            once.Shaped(|symbols|) && Step(once, symbols, faces, target) == once
  {
    var r := Restore(st);
    assert r.saved.None?;
    if Given(target) && FirstMatch(symbols, target.value).Some? {
      var i := FirstMatch(symbols, target.value).value;
      var once := Apply(r, faces, i);
      assert Restore(once) == r by {
        assert r.edges[i := HighlightEdge(faces[i])][i := r.edges[i]] == r.edges;
        assert r.widths[i := HighlightWidth][i := r.widths[i]] == r.widths;
      }
    }
  }

  /** A symbol the chart does not have, or no symbol, only undoes the previous highlight. */
  lemma AbsentOnlyRestores(st: Style, symbols: seq<Cell>, faces: seq<Colour>, target: Option<string>)
    requires st.Shaped(|symbols|) && |faces| == |symbols|
    requires !Given(target) || forall k :: 0 <= k < |symbols| ==> !SymbolIs(symbols[k], target.value)
    ensures Step(st, symbols, faces, target) == Restore(st)
    ensures Step(st, symbols, faces, target).saved.None?
  {
  }

  /** A call changes no point other than the previously recorded one and the new target. */
  lemma StepIsolated(st: Style, symbols: seq<Cell>, faces: seq<Colour>, target: Option<string>, k: nat)
    requires st.Shaped(|symbols|) && |faces| == |symbols| && k < |symbols|
    requires st.saved.None? || st.saved.value.index != k
    requires !Given(target) || FirstMatch(symbols, target.value) != Some(k)
    ensures Step(st, symbols, faces, target).edges[k] == st.edges[k]
    ensures Step(st, symbols, faces, target).widths[k] == st.widths[k]
  {
  }
}
