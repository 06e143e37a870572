/** The tabular data the dashboard receives: a pandas data frame reduced to index labels,
    the index's name and named columns of cells, with numeric coercion given per cell. */
module Frames {
  import opened Wrappers

  /** One cell: a text value together with what numeric coercion makes of it, a number,
      or a missing value (NaN or None). */
  datatype Cell = Text(text: string, parsed: Option<real>) | Number(v: real) | Missing

  /** `pd.to_numeric(..., errors='coerce')` on one cell; `None` is NaN. */
  function ToNumeric(c: Cell): Option<real>
  {
    match c
    case Text(_, p) => p
    case Number(v) => Some(v)
    case Missing => None
  }

  /** The cell `pd.to_numeric(..., errors='coerce')` leaves in place of `c`. */
  function Coerce(c: Cell): (r: Cell)
    ensures r.Number? || r.Missing?
    ensures ToNumeric(r) == ToNumeric(c)
  {
    match ToNumeric(c)
    case Some(v) => Number(v)
    case None => Missing
  }

  function CoerceAll(cells: seq<Cell>): (r: seq<Cell>)
    ensures |r| == |cells|
    ensures forall i :: 0 <= i < |cells| ==> r[i] == Coerce(cells[i])
  {
    seq(|cells|, i requires 0 <= i < |cells| => Coerce(cells[i]))
  }

  datatype Column = Column(name: string, cells: seq<Cell>)

  /** The position of the first column called `name`. */
  function FindColumn(cols: seq<Column>, name: string): (r: Option<nat>)
    ensures r.Some? ==> r.value < |cols| && cols[r.value].name == name
    ensures r.Some? ==> forall k :: 0 <= k < r.value ==> cols[k].name != name
    ensures r.None? <==> forall k :: 0 <= k < |cols| ==> cols[k].name != name
  {
    if cols == [] then None
    else if cols[0].name == name then Some(0)
    else match FindColumn(cols[1..], name)
      case None => None
      case Some(j) => Some(j + 1)
  }

  /** A data frame: one index label per row, the index's name ("" when it has none) and the
      columns in order. */
  datatype Frame = Frame(index: seq<Cell>, indexName: string, columns: seq<Column>) {

    function Height(): nat { |index| }

    /** Every column has one cell per row and no two columns share a name. */
    predicate WellFormed()
    {
      (forall j :: 0 <= j < |columns| ==> |columns[j].cells| == |index|) &&
      (forall j, k :: 0 <= j < k < |columns| ==> columns[j].name != columns[k].name)
    }

    predicate Has(name: string)
    {
      FindColumn(columns, name).Some?
    }

    /** `data[name]`. */
    function Get(name: string): (r: seq<Cell>)
      requires Has(name)
      ensures WellFormed() ==> |r| == |index|
    {
      columns[FindColumn(columns, name).value].cells
    }

    /** `data[name] = cells`: replaces the column in place, or appends a new last column. */
    function Set(name: string, cells: seq<Cell>): (r: Frame)
      requires WellFormed() && |cells| == |index|
      ensures r.WellFormed() && r.index == index && r.indexName == indexName
      ensures r.Has(name) && r.Get(name) == cells
      ensures forall n :: n != name ==> (r.Has(n) <==> Has(n))
      ensures forall n :: n != name && Has(n) ==> r.Get(n) == Get(n)
      ensures Has(name) ==> |r.columns| == |columns|
      ensures !Has(name) ==> r.columns == columns + [Column(name, cells)]
    {
      match FindColumn(columns, name)
      case Some(j) =>
        var r := this.(columns := columns[j := Column(name, cells)]);
        assert forall n :: FindColumn(r.columns, n) == FindColumn(columns, n) by {
          forall n ensures FindColumn(r.columns, n) == FindColumn(columns, n) {
            FindUnchanged(columns, r.columns, n, j);
          }
        }
        r
      case None =>
        var r := this.(columns := columns + [Column(name, cells)]);
        assert forall n :: n != name ==> FindColumn(r.columns, n) == FindColumn(columns, n) by {
          forall n | n != name ensures FindColumn(r.columns, n) == FindColumn(columns, n) {
            FindAppend(columns, Column(name, cells), n);
          }
        }
        FindAppendNew(columns, Column(name, cells));
        r
    }

    /** pandas `.empty`: the frame has no rows or no columns. */
    predicate Empty()
    {
      |index| == 0 || |columns| == 0
    }

    /** The rows at the given positions, in that order (boolean-mask selection). */
    function Select(rows: seq<nat>): (r: Frame)
      requires WellFormed()
      requires forall k :: 0 <= k < |rows| ==> rows[k] < |index|
      ensures r.WellFormed() && |r.index| == |rows| && r.indexName == indexName
      ensures forall k :: 0 <= k < |rows| ==> r.index[k] == index[rows[k]]
      ensures |r.columns| == |columns|
      ensures forall j :: 0 <= j < |columns| ==> r.columns[j].name == columns[j].name
      ensures forall j, k :: 0 <= j < |columns| && 0 <= k < |rows| ==>
                r.columns[j].cells[k] == columns[j].cells[rows[k]]
    {
      Frame(seq(|rows|, k requires 0 <= k < |rows| => index[rows[k]]),
            indexName,
            seq(|columns|, j requires 0 <= j < |columns| =>
              Column(columns[j].name,
                     seq(|rows|, k requires 0 <= k < |rows| => columns[j].cells[rows[k]]))))
    }
  }

  lemma {:induction false} FindUnchanged(cols: seq<Column>, cols': seq<Column>, n: string, j: nat)
    requires j < |cols| && |cols'| == |cols|
    requires cols'[j].name == cols[j].name
    requires forall k :: 0 <= k < |cols| && k != j ==> cols'[k] == cols[k]
    ensures FindColumn(cols', n) == FindColumn(cols, n)
  {
    if cols[0].name != n {
      if j > 0 {
        FindUnchanged(cols[1..], cols'[1..], n, j - 1);
      } else {
        assert cols'[1..] == cols[1..];
      }
    }
  }

  lemma {:induction false} FindAppend(cols: seq<Column>, c: Column, n: string)
    requires c.name != n
    ensures FindColumn(cols + [c], n) == FindColumn(cols, n)
  {
    if cols == [] {
      assert FindColumn([c][1..], n) == None;
    } else if cols[0].name != n {
      assert (cols + [c])[1..] == cols[1..] + [c];
      FindAppend(cols[1..], c, n);
    }
  }

  lemma {:induction false} FindAppendNew(cols: seq<Column>, c: Column)
    requires FindColumn(cols, c.name).None?
    ensures FindColumn(cols + [c], c.name) == Some(|cols|)
  {
    if cols != [] {
      assert (cols + [c])[1..] == cols[1..] + [c];
      FindAppendNew(cols[1..], c);
    }
  }

  lemma {:induction false} FindSameNames(cols: seq<Column>, cols': seq<Column>, n: string)
    requires |cols'| == |cols|
    requires forall k :: 0 <= k < |cols| ==> cols'[k].name == cols[k].name
    ensures FindColumn(cols', n) == FindColumn(cols, n)
  {
    if cols != [] && cols[0].name != n {
      FindSameNames(cols[1..], cols'[1..], n);
    }
  }

  /** The positions i < n for which `p` holds, ascending. */
  function Where(n: nat, p: nat -> bool): (r: seq<nat>)
    ensures forall k :: 0 <= k < |r| ==> r[k] < n && p(r[k])
    ensures forall k, l :: 0 <= k < l < |r| ==> r[k] < r[l]
    ensures forall i :: 0 <= i < n && p(i) ==> i in r
    ensures |r| <= n
  {
    WhereFrom(0, n, p)
  }

  function WhereFrom(i: nat, n: nat, p: nat -> bool): (r: seq<nat>)
    requires i <= n
    ensures forall k :: 0 <= k < |r| ==> i <= r[k] < n && p(r[k])
    ensures forall k, l :: 0 <= k < l < |r| ==> r[k] < r[l]
    ensures forall m :: i <= m < n && p(m) ==> m in r
    ensures |r| <= n - i
    decreases n - i
  {
    if i == n then []
    else if p(i) then [i] + WhereFrom(i + 1, n, p)
    else WhereFrom(i + 1, n, p)
  }

  /** Python's `str.lower` on ASCII letters. */
  function Lower(s: string): (r: string)
    ensures |r| == |s|
  {
    seq(|s|, i requires 0 <= i < |s| =>
      if 'A' <= s[i] <= 'Z' then (s[i] as int - 'A' as int + 'a' as int) as char else s[i])
  }

  /** Python's `sub in s` on strings. */
  predicate Contains(s: string, sub: string)
  {
    (|sub| <= |s| && s[..|sub|] == sub) || (|s| > 0 && Contains(s[1..], sub))
  }

  /** Python's `str(i)` on a natural number. */
  function NatToString(i: nat): (r: string)
    ensures |r| > 0
    ensures forall k :: 0 <= k < |r| ==> '0' <= r[k] <= '9'
  {
    if i < 10 then [Digit(i)] else NatToString(i / 10) + [Digit(i % 10)]
  }

  function Digit(d: nat): (c: char)
    requires d < 10
    ensures '0' <= c <= '9'
  {
    ('0' as int + d) as char
  }
}
