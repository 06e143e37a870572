/** The data preparation of the dashboard: the activity filter applied to every dataset
    received (`update_data`) and the reduction of a dataset to the plotting schema
    symbol / turnover / change (`prepare_data`). */
module Preparation {
  import opened Wrappers
  import opened Frames

  /** One row of the plotting schema; turnover and change are numbers by construction. */
  datatype Instrument = Instrument(symbol: Cell, turnover: real, change: real)

  const Operations: string := "operations"

  /** A row is active when its operations count coerces to a number of at least 1. */
  predicate Active(c: Cell)
  {
    ToNumeric(c).Some? && ToNumeric(c).value >= 1.0
  }

  /** The positions of the active rows, ascending. */
  function ActiveRows(ops: seq<Cell>): seq<nat>
  {
    Where(|ops|, (i: nat) => i < |ops| && Active(ops[i]))
  }

  /** `update_data`'s filter: when an `operations` column exists, coerce it to numbers and
      keep only the rows where it is at least 1; otherwise the frame passes unchanged. */
  function ActivityFilter(f: Frame): (r: Frame)
    requires f.WellFormed()
    ensures r.WellFormed()
  {
    if !f.Has(Operations) then f
    else
      var ops := f.Get(Operations);
      f.Set(Operations, CoerceAll(ops)).Select(ActiveRows(ops))
  }

  /** A row survives the activity filter exactly when its operations count is a number of at
      least 1; the survivors keep their order, their index labels and every other cell, and
      their operations cell holds the coerced number. Without the column nothing changes. */
  lemma ActivityFilterRows(f: Frame)
    requires f.WellFormed()
    ensures !f.Has(Operations) ==> ActivityFilter(f) == f
    ensures f.Has(Operations) ==>
      var ops := f.Get(Operations);
      var kept := ActiveRows(ops);
      var r := ActivityFilter(f);
      (forall i :: 0 <= i < |f.index| ==> (i in kept <==> Active(ops[i]))) &&
      (forall k, l :: 0 <= k < l < |kept| ==> kept[k] < kept[l]) &&
      |r.index| == |kept| &&
      (forall k :: 0 <= k < |kept| ==> kept[k] < |f.index| && r.index[k] == f.index[kept[k]]) &&
      (forall n :: r.Has(n) <==> f.Has(n)) &&
      (forall n, k :: n != Operations && f.Has(n) && 0 <= k < |kept| ==> r.Get(n)[k] == f.Get(n)[kept[k]]) &&
      (forall k :: 0 <= k < |kept| ==> r.Get(Operations)[k] == Coerce(ops[kept[k]]) && Active(r.Get(Operations)[k]))
  {
    if f.Has(Operations) {
      var ops := f.Get(Operations);
      var kept := ActiveRows(ops);
      var g := f.Set(Operations, CoerceAll(ops));
      var r := g.Select(kept);
      forall n ensures FindColumn(r.columns, n) == FindColumn(g.columns, n) {
        FindSameNames(g.columns, r.columns, n);
      }
    }
  }

  /** The example of a four-row dataset whose operations are 0, 1, "x" and 5: only the second
      and the fourth row remain. */
  lemma ActivityFilterExample()
    ensures ActiveRows([Number(0.0), Number(1.0), Text("x", None), Number(5.0)]) == [1, 3]
  {
    var ops := [Number(0.0), Number(1.0), Text("x", None), Number(5.0)];
    var p := (i: nat) => i < |ops| && Active(ops[i]);
    assert WhereFrom(4, 4, p) == [];
    assert WhereFrom(3, 4, p) == [3];
    assert WhereFrom(2, 4, p) == [3];
    assert WhereFrom(1, 4, p) == [1, 3];
    assert WhereFrom(0, 4, p) == [1, 3];
  }

  /** `prepare_data`'s mapping of alternative column names onto canonical ones, in order. */
  const ColumnMapping: seq<(string, string)> :=
    [("ticker", "symbol"), ("simbolo", "symbol"), ("precio", "price"), ("turnover", "turnover"),
     ("variacion", "change"), ("var", "change"), ("cambio", "change"), ("pct_change", "change")]

  /** Each pair copies the source column to the canonical name, only when the source is
      present and the canonical column is not. */
  function MapColumns(f: Frame, m: seq<(string, string)>): (r: Frame)
    requires f.WellFormed()
    ensures r.WellFormed() && r.index == f.index && r.indexName == f.indexName
    ensures forall n :: f.Has(n) ==> r.Has(n) && r.Get(n) == f.Get(n)
    decreases |m|
  {
    if m == [] then f
    else
      var g := if f.Has(m[0].0) && !f.Has(m[0].1) then f.Set(m[0].1, f.Get(m[0].0)) else f;
      MapColumns(g, m[1..])
  }

  /** The cells of the first source in mapping order that is present and maps onto `dst`. */
  function AliasSource(f: Frame, m: seq<(string, string)>, dst: string): Option<seq<Cell>>
  {
    if m == [] then None
    else if m[0].1 == dst && m[0].0 != dst && f.Has(m[0].0) then Some(f.Get(m[0].0))
    else AliasSource(f, m[1..], dst)
  }

  /** No pair reads a column that another pair writes, except a pair mapping a name onto
      itself. */
  predicate SourcesStay(m: seq<(string, string)>)
  {
    forall k, l :: 0 <= k < |m| && 0 <= l < |m| && m[k].0 == m[l].1 ==> m[l].0 == m[l].1
  }

  lemma {:induction false} AliasSourceSame(f: Frame, g: Frame, m: seq<(string, string)>, dst: string, changed: string)
    requires forall n :: n != changed ==> (g.Has(n) <==> f.Has(n))
    requires forall n :: n != changed && f.Has(n) ==> g.Get(n) == f.Get(n)
    requires forall k :: 0 <= k < |m| ==> m[k].0 != changed
    ensures AliasSource(g, m, dst) == AliasSource(f, m, dst)
  {
    if m != [] {
      AliasSourceSame(f, g, m[1..], dst, changed);
    }
  }

  /** The mapping fills a canonical column only when it is absent, from the first present
      source in mapping order; a column already present keeps its cells. */
  lemma {:induction false} MapColumnsFills(f: Frame, m: seq<(string, string)>, dst: string)
    requires f.WellFormed() && SourcesStay(m)
    decreases |m|
    ensures !f.Has(dst) ==>
              (MapColumns(f, m).Has(dst) <==> AliasSource(f, m, dst).Some?) &&
              (MapColumns(f, m).Has(dst) ==> MapColumns(f, m).Get(dst) == AliasSource(f, m, dst).value)
  {
    if m != [] && !f.Has(dst) {
      var src := m[0].0;
      var fired := f.Has(src) && !f.Has(m[0].1);
      var g := if fired then f.Set(m[0].1, f.Get(src)) else f;
      assert SourcesStay(m[1..]) by {
        forall k, l | 0 <= k < |m[1..]| && 0 <= l < |m[1..]| && m[1..][k].0 == m[1..][l].1
          ensures m[1..][l].0 == m[1..][l].1
        {
          assert m[k + 1].0 == m[l + 1].1;
        }
      }
      if fired && m[0].1 == dst {
        assert AliasSource(f, m, dst) == Some(f.Get(src));
      } else {
        if fired {
          assert m[0].0 != m[0].1;
          forall k | 0 <= k < |m[1..]| ensures m[1..][k].0 != m[0].1 {
            assert m[1..][k] == m[k + 1];
          }
          AliasSourceSame(f, g, m[1..], dst, m[0].1);
        }
        MapColumnsFills(g, m[1..], dst);
      }
    }
  }

  /** The aliases the mapping gives each canonical column: `ticker` then `simbolo` for
      symbol, `precio` for price, none for turnover, and `variacion`, `var`, `cambio`,
      `pct_change` for change; and no pair reads a column another pair writes. */
  lemma CanonicalAliases(f: Frame)
    ensures SourcesStay(ColumnMapping)
    ensures AliasSource(f, ColumnMapping, "symbol") ==
              if f.Has("ticker") then Some(f.Get("ticker"))
              else if f.Has("simbolo") then Some(f.Get("simbolo")) else None
    ensures AliasSource(f, ColumnMapping, "price") ==
              if f.Has("precio") then Some(f.Get("precio")) else None
    ensures AliasSource(f, ColumnMapping, "turnover") == None
    ensures AliasSource(f, ColumnMapping, "change") ==
              if f.Has("variacion") then Some(f.Get("variacion"))
              else if f.Has("var") then Some(f.Get("var"))
              else if f.Has("cambio") then Some(f.Get("cambio"))
              else if f.Has("pct_change") then Some(f.Get("pct_change")) else None
  {
    AliasesOf(f, "symbol");
    AliasesOf(f, "price");
    AliasesOf(f, "turnover");
    AliasesOf(f, "change");
  }

  /** The lookup for one canonical name, unfolded pair by pair. */
  lemma AliasesOf(f: Frame, d: string)
    requires d in ["symbol", "price", "turnover", "change"]
    ensures d == "symbol" ==>
              AliasSource(f, ColumnMapping, d) ==
                (if f.Has("ticker") then Some(f.Get("ticker"))
                 else if f.Has("simbolo") then Some(f.Get("simbolo")) else None)
    ensures d == "price" ==>
              AliasSource(f, ColumnMapping, d) == (if f.Has("precio") then Some(f.Get("precio")) else None)
    ensures d == "turnover" ==> AliasSource(f, ColumnMapping, d) == None
    ensures d == "change" ==>
              AliasSource(f, ColumnMapping, d) ==
                (if f.Has("variacion") then Some(f.Get("variacion"))
                 else if f.Has("var") then Some(f.Get("var"))
                 else if f.Has("cambio") then Some(f.Get("cambio"))
                 else if f.Has("pct_change") then Some(f.Get("pct_change")) else None)
  {
    var t8: seq<(string, string)> := [];
    var t7 := [("pct_change", "change")] + t8;
    var t6 := [("cambio", "change")] + t7;
    var t5 := [("var", "change")] + t6;
    var t4 := [("variacion", "change")] + t5;
    var t3 := [("turnover", "turnover")] + t4;
    var t2 := [("precio", "price")] + t3;
    var t1 := [("simbolo", "symbol")] + t2;
    var t0 := [("ticker", "symbol")] + t1;
    assert t0 == ColumnMapping;
    AliasCons(f, ("pct_change", "change"), t8, d);
    AliasCons(f, ("cambio", "change"), t7, d);
    AliasCons(f, ("var", "change"), t6, d);
    AliasCons(f, ("variacion", "change"), t5, d);
    AliasCons(f, ("turnover", "turnover"), t4, d);
    AliasCons(f, ("precio", "price"), t3, d);
    AliasCons(f, ("simbolo", "symbol"), t2, d);
    AliasCons(f, ("ticker", "symbol"), t1, d);
  }

  /** One step of the lookup. */
  lemma AliasCons(f: Frame, p: (string, string), rest: seq<(string, string)>, d: string)
    ensures AliasSource(f, [p] + rest, d) ==
              if p.1 == d && p.0 != d && f.Has(p.0) then Some(f.Get(p.0)) else AliasSource(f, rest, d)
  {
    assert ([p] + rest)[1..] == rest;
  }

  const VolumeWords: seq<string> := ["vol"]
  const ChangeWords: seq<string> := ["var", "change", "pct", "cambio"]

  /** Whether the lower-cased name contains one of the words. */
  predicate MentionsAny(name: string, words: seq<string>)
  {
    words != [] && (Contains(Lower(name), words[0]) || MentionsAny(name, words[1..]))
  }

  /** The position of the first column whose lower-cased name contains one of the words. */
  function FirstMentioning(cols: seq<Column>, words: seq<string>): (r: Option<nat>)
    ensures r.Some? ==> r.value < |cols| && MentionsAny(cols[r.value].name, words)
    ensures r.Some? ==> forall k :: 0 <= k < r.value ==> !MentionsAny(cols[k].name, words)
    ensures r.None? ==> forall k :: 0 <= k < |cols| ==> !MentionsAny(cols[k].name, words)
  {
    if cols == [] then None
    else if MentionsAny(cols[0].name, words) then Some(0)
    else match FirstMentioning(cols[1..], words)
      case None => None
      case Some(j) => Some(j + 1)
  }

  /** The generated symbols `INST_0`, `INST_1`, ... (text that does not parse as a number). */
  function InstNames(n: nat): (r: seq<Cell>)
    ensures |r| == n
    ensures forall i :: 0 <= i < n ==> r[i] == Text("INST_" + NatToString(i), None) && r[i] != Missing
  {
    seq(n, i requires 0 <= i < n => Text("INST_" + NatToString(i), None))
  }

  /** A column of random fallback values, one draw per row. */
  function Draws(draw: nat -> real, n: nat): (r: seq<Cell>)
    ensures |r| == n
    ensures forall i :: 0 <= i < n ==> r[i] == Number(draw(i))
  {
    seq(n, i requires 0 <= i < n => Number(draw(i)))
  }

  /** A missing symbol column is taken from a named index, or generated. */
  function WithSymbol(f: Frame): (r: Frame)
    requires f.WellFormed()
    ensures r.WellFormed() && r.index == f.index && r.Has("symbol")
    ensures forall n :: f.Has(n) ==> r.Has(n) && r.Get(n) == f.Get(n)
    ensures forall n :: n != "symbol" ==> (r.Has(n) <==> f.Has(n))
    ensures !f.Has("symbol") ==>
              r.Get("symbol") == if f.indexName != "" then f.index else InstNames(|f.index|)
  {
    if f.Has("symbol") then f
    else f.Set("symbol", if f.indexName != "" then f.index else InstNames(|f.index|))
  }

  /** A missing numeric column is coerced from the first column whose name mentions one of
      the words, or filled with random draws. */
  function WithNumeric(f: Frame, name: string, words: seq<string>, draw: nat -> real): (r: Frame)
    requires f.WellFormed()
    ensures r.WellFormed() && r.index == f.index && r.Has(name)
    ensures forall n :: n != name ==> (r.Has(n) <==> f.Has(n))
    ensures forall n :: f.Has(n) ==> r.Get(n) == f.Get(n)
    ensures !f.Has(name) ==>
              r.Get(name) == if FirstMentioning(f.columns, words).Some?
                             then CoerceAll(f.columns[FirstMentioning(f.columns, words).value].cells)
                             else Draws(draw, |f.index|)
    ensures !f.Has(name) ==> forall i :: 0 <= i < |r.Get(name)| ==> r.Get(name)[i].Number? || r.Get(name)[i].Missing?
  {
    if f.Has(name) then f
    else match FirstMentioning(f.columns, words)
      case Some(j) => f.Set(name, CoerceAll(f.columns[j].cells))
      case None => f.Set(name, Draws(draw, |f.index|))
  }

  /** The frame with the three canonical columns in place. */
  function Canonical(raw: Frame, turnoverDraw: nat -> real, changeDraw: nat -> real): (f: Frame)
    requires raw.WellFormed()
    ensures f.WellFormed() && f.index == raw.index
    ensures f.Has("symbol") && f.Has("turnover") && f.Has("change")
  {
    var f := WithSymbol(MapColumns(raw, ColumnMapping));
    WithNumeric(WithNumeric(f, "turnover", VolumeWords, turnoverDraw), "change", ChangeWords, changeDraw)
  }

  /** A row is kept when its symbol is not missing and turnover and change coerce. */
  predicate Complete(symbol: Cell, turnover: Cell, change: Cell)
  {
    symbol != Missing && ToNumeric(turnover).Some? && ToNumeric(change).Some?
  }

  /** The positions of the rows `prepare_data` keeps, ascending. */
  function KeptRows(f: Frame): (r: seq<nat>)
    requires f.WellFormed() && f.Has("symbol") && f.Has("turnover") && f.Has("change")
    ensures forall k :: 0 <= k < |r| ==>
              r[k] < |f.index| &&
              Complete(f.Get("symbol")[r[k]], f.Get("turnover")[r[k]], f.Get("change")[r[k]])
    ensures forall k, l :: 0 <= k < l < |r| ==> r[k] < r[l]
    ensures forall i :: 0 <= i < |f.index| ==>
              (i in r <==> Complete(f.Get("symbol")[i], f.Get("turnover")[i], f.Get("change")[i]))
    ensures |r| <= |f.index|
  {
    var sym, tv, ch := f.Get("symbol"), f.Get("turnover"), f.Get("change");
    Where(|f.index|, (i: nat) => i < |sym| && i < |tv| && i < |ch| && Complete(sym[i], tv[i], ch[i]))
  }

  /** The complete rows of a frame with the canonical columns, as instruments. */
  function Instruments(f: Frame): (r: seq<Instrument>)
    requires f.WellFormed() && f.Has("symbol") && f.Has("turnover") && f.Has("change")
  {
    var sym, tv, ch := f.Get("symbol"), f.Get("turnover"), f.Get("change");
    var rows := KeptRows(f);
    seq(|rows|, k requires 0 <= k < |rows| =>
      Instrument(sym[rows[k]], ToNumeric(tv[rows[k]]).value, ToNumeric(ch[rows[k]]).value))
  }

  /** `prepare_data`: canonical columns, numeric coercion, and the rows that are complete. */
  function PrepareData(raw: Frame, turnoverDraw: nat -> real, changeDraw: nat -> real): seq<Instrument>
    requires raw.WellFormed()
  {
    Instruments(Canonical(raw, turnoverDraw, changeDraw))
  }

  /** Every prepared row is a complete row of the canonical frame, in the original order,
      with the coerced turnover and change; every complete row is prepared. So no prepared
      row has a missing symbol, and there are no more rows than the dataset had. */
  lemma PrepareDataRows(raw: Frame, turnoverDraw: nat -> real, changeDraw: nat -> real)
    requires raw.WellFormed()
    ensures var f := Canonical(raw, turnoverDraw, changeDraw);
            var r := PrepareData(raw, turnoverDraw, changeDraw);
            var rows := KeptRows(f);
            var sym, tv, ch := f.Get("symbol"), f.Get("turnover"), f.Get("change");
            |r| == |rows| <= |raw.index| &&
            (forall k, l :: 0 <= k < l < |rows| ==> rows[k] < rows[l]) &&
            (forall k :: 0 <= k < |rows| ==>
               rows[k] < |raw.index| && r[k].symbol == sym[rows[k]] && r[k].symbol != Missing &&
               ToNumeric(tv[rows[k]]) == Some(r[k].turnover) && ToNumeric(ch[rows[k]]) == Some(r[k].change)) &&
            (forall i :: 0 <= i < |raw.index| ==> (i in rows <==> Complete(sym[i], tv[i], ch[i])))
  {
    var f := Canonical(raw, turnoverDraw, changeDraw);
    assert PrepareData(raw, turnoverDraw, changeDraw) == Instruments(f);
    InstrumentsRows(f);
  }

  /** The instruments of a frame with the canonical columns are its complete rows. */
  lemma InstrumentsRows(f: Frame)
    requires f.WellFormed() && f.Has("symbol") && f.Has("turnover") && f.Has("change")
    ensures var r := Instruments(f);
            var rows := KeptRows(f);
            var sym, tv, ch := f.Get("symbol"), f.Get("turnover"), f.Get("change");
            |r| == |rows| <= |f.index| &&
            (forall k :: 0 <= k < |rows| ==>
               r[k].symbol == sym[rows[k]] && r[k].symbol != Missing &&
               ToNumeric(tv[rows[k]]) == Some(r[k].turnover) && ToNumeric(ch[rows[k]]) == Some(r[k].change))
  {
  }

  /** Canonical columns present in the dataset are used as they are; a missing one comes
      from the mapping first. */
  lemma CanonicalColumns(raw: Frame, turnoverDraw: nat -> real, changeDraw: nat -> real)
    requires raw.WellFormed()
    ensures var f := Canonical(raw, turnoverDraw, changeDraw);
            (raw.Has("symbol") ==> f.Get("symbol") == raw.Get("symbol")) &&
            (raw.Has("turnover") ==> f.Get("turnover") == raw.Get("turnover")) &&
            (raw.Has("change") ==> f.Get("change") == raw.Get("change")) &&
            (!raw.Has("symbol") && raw.Has("ticker") ==> f.Get("symbol") == raw.Get("ticker")) &&
            (!raw.Has("change") && raw.Has("variacion") ==> f.Get("change") == raw.Get("variacion"))
  {
    if raw.Has("symbol") {
      CanonicalFrom(raw, turnoverDraw, changeDraw, "symbol", "symbol");
    }
    if raw.Has("turnover") {
      CanonicalFrom(raw, turnoverDraw, changeDraw, "turnover", "turnover");
    }
    if raw.Has("change") {
      CanonicalFrom(raw, turnoverDraw, changeDraw, "change", "change");
    }
    if !raw.Has("symbol") && raw.Has("ticker") {
      CanonicalFrom(raw, turnoverDraw, changeDraw, "symbol", "ticker");
    }
    if !raw.Has("change") && raw.Has("variacion") {
      CanonicalFrom(raw, turnoverDraw, changeDraw, "change", "variacion");
    }
  }

  /** One canonical column of the prepared frame, taken from the dataset's column `src`. */
  lemma CanonicalFrom(raw: Frame, turnoverDraw: nat -> real, changeDraw: nat -> real, dst: string, src: string)
    requires raw.WellFormed() && raw.Has(src)
    requires dst == src || (!raw.Has(dst) && ((dst, src) == ("symbol", "ticker") || (dst, src) == ("change", "variacion")))
    ensures Canonical(raw, turnoverDraw, changeDraw).Get(dst) == raw.Get(src)
  {
    CanonicalKeepsMapped(raw, turnoverDraw, changeDraw);
    if dst != src {
      MappedAlias(raw, dst, src);
    }
  }

  /** A missing `symbol` is filled from `ticker`, a missing `change` from `variacion`. */
  lemma MappedAlias(raw: Frame, dst: string, src: string)
    requires raw.WellFormed() && !raw.Has(dst) && raw.Has(src)
    requires (dst, src) == ("symbol", "ticker") || (dst, src) == ("change", "variacion")
    ensures MapColumns(raw, ColumnMapping).Has(dst)
    ensures MapColumns(raw, ColumnMapping).Get(dst) == raw.Get(src)
  {
    CanonicalAliases(raw);
    MapColumnsFills(raw, ColumnMapping, dst);
  }

  lemma CanonicalKeepsMapped(raw: Frame, turnoverDraw: nat -> real, changeDraw: nat -> real)
    requires raw.WellFormed()
    ensures var mapped := MapColumns(raw, ColumnMapping);
            var f := Canonical(raw, turnoverDraw, changeDraw);
            forall n :: mapped.Has(n) ==> f.Has(n) && f.Get(n) == mapped.Get(n)
  {
    var mapped := MapColumns(raw, ColumnMapping);
    var f1 := WithSymbol(mapped);
    var f2 := WithNumeric(f1, "turnover", VolumeWords, turnoverDraw);
    assert Canonical(raw, turnoverDraw, changeDraw) == WithNumeric(f2, "change", ChangeWords, changeDraw);
  }

  /** A dataset with neither a symbol column nor an alias of one, and an unnamed index, gets
      the generated symbols `INST_0`, `INST_1`, ...; none of them is missing, so the symbol
      never drops a row of such a dataset. */
  lemma GeneratedSymbols(raw: Frame, turnoverDraw: nat -> real, changeDraw: nat -> real)
    requires raw.WellFormed() && !MapColumns(raw, ColumnMapping).Has("symbol") && raw.indexName == ""
    ensures var f := Canonical(raw, turnoverDraw, changeDraw);
            f.Get("symbol") == InstNames(|raw.index|) &&
            forall i :: 0 <= i < |raw.index| ==> f.Get("symbol")[i] != Missing
  {
    var mapped := MapColumns(raw, ColumnMapping);
    assert mapped.index == raw.index && mapped.indexName == "";
    var f1 := WithSymbol(mapped);
    assert f1.Get("symbol") == InstNames(|raw.index|);
    NumericKeepsSymbol(f1, turnoverDraw, changeDraw);
  }

  /** The two numeric steps leave an existing symbol column as it is. */
  lemma NumericKeepsSymbol(f1: Frame, turnoverDraw: nat -> real, changeDraw: nat -> real)
    requires f1.WellFormed() && f1.Has("symbol")
    ensures var f := WithNumeric(WithNumeric(f1, "turnover", VolumeWords, turnoverDraw), "change", ChangeWords, changeDraw);
            f.Has("symbol") && f.Get("symbol") == f1.Get("symbol")
  {
    var f2 := WithNumeric(f1, "turnover", VolumeWords, turnoverDraw);
    assert f2.Has("symbol") && f2.Get("symbol") == f1.Get("symbol");
  }
}
