/** The data table's cells (`NumericTableWidgetItem`) with their sort order, and the lookup
    of the column that identifies an instrument when a row is clicked. */
module TableItems {
  import opened Wrappers
  import opened Frames

  /** A table cell: its text and the number `float(text)` gives, if any. */
  datatype Item = Item(text: string, value: Option<real>)

  /** Python's `<` on strings: lexicographic by code point, a proper prefix first. */
  predicate TextLess(a: string, b: string)
  {
    if a == [] then b != []
    else if b == [] then false
    else a[0] < b[0] || (a[0] == b[0] && TextLess(a[1..], b[1..]))
  }

  /** `__lt__`: numeric comparison when both cells parsed, otherwise textual. */
  predicate NumericLess(a: Item, b: Item)
  {
    if a.value.Some? && b.value.Some? then a.value.value < b.value.value
    else TextLess(a.text, b.text)
  }

  lemma {:induction false} TextLessIrreflexive(a: string)
    ensures !TextLess(a, a)
  {
    if a != [] {
      TextLessIrreflexive(a[1..]);
    }
  }

  lemma {:induction false} TextLessAsymmetric(a: string, b: string)
    ensures TextLess(a, b) ==> !TextLess(b, a)
  {
    if a != [] && b != [] && a[0] == b[0] {
      TextLessAsymmetric(a[1..], b[1..]);
    }
  }

  lemma {:induction false} TextLessTransitive(a: string, b: string, c: string)
    ensures TextLess(a, b) && TextLess(b, c) ==> TextLess(a, c)
  {
    if a != [] && b != [] && c != [] && a[0] == b[0] == c[0] {
      TextLessTransitive(a[1..], b[1..], c[1..]);
    }
  }

  lemma {:induction false} TextLessTotal(a: string, b: string)
    ensures a == b || TextLess(a, b) || TextLess(b, a)
  {
    if a != [] && b != [] && a[0] == b[0] {
      TextLessTotal(a[1..], b[1..]);
      assert a == [a[0]] + a[1..] && b == [b[0]] + b[1..];
    }
  }

  /** Two parsed cells compare as numbers, whatever their text says ("9" before "10"). */
  lemma NumericCellsCompareAsNumbers(a: Item, b: Item)
    requires a.value.Some? && b.value.Some?
    ensures NumericLess(a, b) <==> a.value.value < b.value.value
  {
  }

  /** The comparison is a strict order on the cells of a column that is all numeric or all
      text: irreflexive, asymmetric and transitive. */
  lemma NumericLessStrictOrder(a: Item, b: Item, c: Item)
    requires (a.value.Some? && b.value.Some? && c.value.Some?) ||
             (a.value.None? && b.value.None? && c.value.None?)
    ensures !NumericLess(a, a)
    ensures NumericLess(a, b) ==> !NumericLess(b, a)
    ensures NumericLess(a, b) && NumericLess(b, c) ==> NumericLess(a, c)
  {
    TextLessIrreflexive(a.text);
    TextLessAsymmetric(a.text, b.text);
    TextLessTransitive(a.text, b.text, c.text);
  }

  /** Asymmetry holds for any two cells, mixed or not. */
  lemma NumericLessAsymmetric(a: Item, b: Item)
    ensures !NumericLess(a, a)
    ensures NumericLess(a, b) ==> !NumericLess(b, a)
  {
    TextLessIrreflexive(a.text);
    TextLessAsymmetric(a.text, b.text);
  }

  /** In a column mixing numbers and text the comparison is not transitive: "9" < "10"
      numerically, "10" < "5x" and "5x" < "9" textually, a cycle. */
  lemma MixedColumnCycle()
    ensures var ten, nine, text := Item("10", Some(10.0)), Item("9", Some(9.0)), Item("5x", None);
            NumericLess(nine, ten) && NumericLess(ten, text) && NumericLess(text, nine)
  {
    assert TextLess("10", "5x");
    assert TextLess("5x", "9");
  }

  /** The header names that identify the instrument, in order of preference. */
  const SymbolNames: seq<string> := ["symbol", "ticker", "simbolo"]

  /** Python's `list.index`: the first position holding `x`. */
  function IndexOf(s: seq<string>, x: string): (r: Option<nat>)
    ensures r.Some? ==> r.value < |s| && s[r.value] == x
    ensures r.Some? ==> forall k :: 0 <= k < r.value ==> s[k] != x
    ensures r.None? <==> x !in s
  {
    if s == [] then None
    else if s[0] == x then Some(0)
    else match IndexOf(s[1..], x)
      case None => None
      case Some(j) => Some(j + 1)
  }

  function LowerAll(headers: seq<string>): (r: seq<string>)
    ensures |r| == |headers|
    ensures forall i :: 0 <= i < |headers| ==> r[i] == Lower(headers[i])
  {
    seq(|headers|, i requires 0 <= i < |headers| => Lower(headers[i]))
  }

  /** The first preferred name present among the labels, tried in preference order. */
  function FirstPresent(labels: seq<string>, names: seq<string>): (r: int)
    ensures -1 <= r < |labels|
    ensures r == -1 <==> forall n :: n in names ==> n !in labels
    ensures r >= 0 ==> exists j :: 0 <= j < |names| && labels[r] == names[j] &&
                         IndexOf(labels, names[j]) == Some(r) &&
                         forall k :: 0 <= k < j ==> names[k] !in labels
  {
    if names == [] then -1
    else match IndexOf(labels, names[0])
      case Some(i) => i
      case None =>
        var r := FirstPresent(labels, names[1..]);
        if r >= 0 then
          var j :| 0 <= j < |names[1..]| && labels[r] == names[1..][j] &&
                   IndexOf(labels, names[1..][j]) == Some(r) &&
                   forall k :: 0 <= k < j ==> names[1..][k] !in labels;
          assert labels[r] == names[j + 1];
          r
        else r
  }

  /** The column `on_table_cell_clicked` reads the symbol from: among the lower-cased headers,
      the first `symbol`, else the first `ticker`, else the first `simbolo`; -1 when there is
      none, and the click then does nothing. */
  function SymbolColumnIndex(headers: seq<string>): (r: int)
    ensures -1 <= r < |headers|
    ensures r == -1 <==> forall i :: 0 <= i < |headers| ==> Lower(headers[i]) !in SymbolNames
  {
    var r := FirstPresent(LowerAll(headers), SymbolNames);
    assert r == -1 <==> forall i :: 0 <= i < |headers| ==> LowerAll(headers)[i] !in SymbolNames by {
      if r != -1 {
        var j :| 0 <= j < |SymbolNames| && LowerAll(headers)[r] == SymbolNames[j];
      }
    }
    r
  }

  /** A `symbol` header wins over `ticker` and `simbolo` wherever they stand, and the first of
      several equal headers is taken; case does not matter. */
  lemma SymbolColumnPreference(headers: seq<string>)
    ensures var r := SymbolColumnIndex(headers);
            var labels := LowerAll(headers);
            ("symbol" in labels ==> IndexOf(labels, "symbol") == Some(r)) &&
            ("symbol" !in labels && "ticker" in labels ==> IndexOf(labels, "ticker") == Some(r)) &&
            ("symbol" !in labels && "ticker" !in labels && "simbolo" in labels ==>
               IndexOf(labels, "simbolo") == Some(r))
  {
    var labels := LowerAll(headers);
    var r := SymbolColumnIndex(headers);
    assert r == FirstPresent(labels, SymbolNames);
    if r >= 0 {
      var j :| 0 <= j < |SymbolNames| && labels[r] == SymbolNames[j] &&
               IndexOf(labels, SymbolNames[j]) == Some(r) &&
               forall k :: 0 <= k < j ==> SymbolNames[k] !in labels;
    }
  }

  /** The example of headers `Ticker`, `Price`, `SYMBOL`: the symbol column is the third. */
  lemma SymbolColumnExample()
    ensures SymbolColumnIndex(["Ticker", "Price", "SYMBOL"]) == 2
  {
    var h := ["Ticker", "Price", "SYMBOL"];
    assert Lower("Ticker") == "ticker" by {
      assert forall i :: 0 <= i < 6 ==> Lower("Ticker")[i] == "ticker"[i];
    }
    assert Lower("Price") == "price" by {
      assert forall i :: 0 <= i < 5 ==> Lower("Price")[i] == "price"[i];
    }
    assert Lower("SYMBOL") == "symbol" by {
      assert forall i :: 0 <= i < 6 ==> Lower("SYMBOL")[i] == "symbol"[i];
    }
    assert LowerAll(h) == ["ticker", "price", "symbol"];
    SymbolColumnPreference(h);
    assert IndexOf(LowerAll(h), "symbol") == Some(2);
  }
}
