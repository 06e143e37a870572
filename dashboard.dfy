/** The main window (`SHDAHomeBrokerApp`): the single-flight guard on fetching, the
    handling of the worker's signals, the tables, and the table click that highlights a
    point on the chart. */
module Dashboard {
  import opened Wrappers
  import opened Frames
  import opened Acquisition
  import opened Preparation
  import opened TableItems
  import opened Highlight
  import opened Viewport
  import opened Chart

  /** The columns a table never shows. */
  const Hidden: seq<string> := ["settlement", "group"]

  /** A table's contents: its header labels and one row of items per frame row. */
  datatype Table = Table(headers: seq<string>, items: seq<seq<Item>>)

  /** A table with no rows and no columns. */
  const Cleared: Table := Table([], [])

  /** `data.drop(columns=['settlement', 'group'], errors='ignore')` on the columns. */
  function Shown(cols: seq<Column>): (r: seq<Column>)
    ensures |r| <= |cols|
    ensures forall j :: 0 <= j < |r| ==> r[j] in cols && r[j].name !in Hidden
    ensures forall c :: c in cols && c.name !in Hidden ==> c in r
  {
    if cols == [] then []
    else (if cols[0].name in Hidden then [] else [cols[0]]) + Shown(cols[1..])
  }

  function Names(cols: seq<Column>): (r: seq<string>)
    ensures |r| == |cols| && forall j :: 0 <= j < |cols| ==> r[j] == cols[j].name
  {
    seq(|cols|, j requires 0 <= j < |cols| => cols[j].name)
  }

  /** `NumericTableWidgetItem(str(value))`: `render` is `str`, `parse` is `float` on text. */
  function ItemOf(c: Cell, render: Cell -> string, parse: string -> Option<real>): Item
  {
    Item(render(c), parse(render(c)))
  }

  /** The items of row `i` of the shown columns. */
  function RowItems(cols: seq<Column>, i: nat, render: Cell -> string, parse: string -> Option<real>): seq<Item>
    requires forall j :: 0 <= j < |cols| ==> i < |cols[j].cells|
  {
    seq(|cols|, j requires 0 <= j < |cols| => ItemOf(cols[j].cells[i], render, parse))
  }

  /** What `update_table` shows for a frame: nothing for no frame or an empty one, else the
      shown columns, one row per frame row. */
  function TableOf(data: Option<Frame>, render: Cell -> string, parse: string -> Option<real>): Table
    requires data.Some? ==> data.value.WellFormed()
  {
    if data.None? || data.value.Empty() then Cleared
    else
      var f := data.value;
      var cols := Shown(f.columns);
      Table(Names(cols), seq(|f.index|, i requires 0 <= i < |f.index| => RowItems(cols, i, render, parse)))
  }

  /** In a well-formed frame, a column is found by its own name at its own place. */
  lemma FindOwnColumn(f: Frame, k: nat)
    requires f.WellFormed() && k < |f.columns|
    ensures FindColumn(f.columns, f.columns[k].name) == Some(k)
  {
  }

  /** A table lists every column of the frame but settlement and group, one row per frame
      row, and its cell in row `i` under header `h` shows the frame's cell `data[h][i]`. */
  lemma TableContents(f: Frame, render: Cell -> string, parse: string -> Option<real>)
    requires f.WellFormed() && !f.Empty()
    ensures var t := TableOf(Some(f), render, parse);
            |t.items| == f.Height() &&
            (forall n :: n in t.headers <==> f.Has(n) && n !in Hidden) &&
            (forall i, j :: 0 <= i < |t.items| && 0 <= j < |t.headers| ==>
               |t.items[i]| == |t.headers| && f.Has(t.headers[j]) &&
               t.items[i][j] == ItemOf(f.Get(t.headers[j])[i], render, parse))
  {
    var t := TableOf(Some(f), render, parse);
    var cols := Shown(f.columns);
    forall n ensures n in t.headers <==> f.Has(n) && n !in Hidden {
      if n in t.headers {
        var j :| 0 <= j < |cols| && cols[j].name == n;
        var k :| 0 <= k < |f.columns| && f.columns[k] == cols[j];
        FindOwnColumn(f, k);
      }
      if f.Has(n) && n !in Hidden {
        var k := FindColumn(f.columns, n).value;
        assert f.columns[k] in cols;
        var j :| 0 <= j < |cols| && cols[j] == f.columns[k];
        assert t.headers[j] == n;
      }
    }
    forall i, j | 0 <= i < |t.items| && 0 <= j < |t.headers|
      ensures |t.items[i]| == |t.headers| && f.Has(t.headers[j])
      ensures t.items[i][j] == ItemOf(f.Get(t.headers[j])[i], render, parse)
    {
      var k :| 0 <= k < |f.columns| && f.columns[k] == cols[j];
      FindOwnColumn(f, k);
    }
  }

  /** The storage after one signal: a dataset stores its class's activity-filtered frame. */
  function Store(storage: map<Class, Option<Frame>>, e: Event): map<Class, Option<Frame>>
    requires e.Dataset? ==> e.frame.WellFormed()
  {
    if e.Dataset? then storage[e.cls := Some(ActivityFilter(e.frame))] else storage
  }

  predicate FramesWellFormed(es: seq<Event>)
  {
    forall k :: 0 <= k < |es| && es[k].Dataset? ==> es[k].frame.WellFormed()
  }

  /** The storage after the signals in order. */
  function StoreAll(storage: map<Class, Option<Frame>>, es: seq<Event>): map<Class, Option<Frame>>
    requires FramesWellFormed(es)
    decreases |es|
  {
    if es == [] then storage else StoreAll(Store(storage, es[0]), es[1..])
  }

  /** Every class has an entry, as `data_storage` is created with one. */
  predicate Total(storage: map<Class, Option<Frame>>)
  {
    forall c: Class :: c in storage
  }

  /** The requests that returned a frame returned a well-formed one. */
  predicate OutcomesWellFormed(outcome: Outcomes)
  {
    forall c: Class :: outcome.Of(c).Got? ==> outcome.Of(c).frame.WellFormed()
  }

  /** The storage after a list of datasets. */
  function StoreList(storage: map<Class, Option<Frame>>, ds: seq<(Class, Frame)>): (r: map<Class, Option<Frame>>)
    requires forall k :: 0 <= k < |ds| ==> ds[k].1.WellFormed()
    ensures Total(storage) ==> Total(r)
    decreases |ds|
  {
    if ds == [] then storage
    else StoreList(storage[ds[0].0 := Some(ActivityFilter(ds[0].1))], ds[1..])
  }

  lemma {:induction false} StoreAllDatasets(storage: map<Class, Option<Frame>>, es: seq<Event>)
    requires FramesWellFormed(es)
    ensures forall k :: 0 <= k < |Datasets(es)| ==> Datasets(es)[k].1.WellFormed()
    ensures StoreAll(storage, es) == StoreList(storage, Datasets(es))
    decreases |es|
  {
    if es != [] {
      assert FramesWellFormed(es[1..]) by {
        forall k | 0 <= k < |es[1..]| && es[1..][k].Dataset? ensures es[1..][k].frame.WellFormed() {
          assert es[1..][k] == es[k + 1];
        }
      }
      StoreAllDatasets(Store(storage, es[0]), es[1..]);
      var rest := Datasets(es[1..]);
      if es[0].Dataset? {
        var d := (es[0].cls, es[0].frame);
        assert Datasets(es) == [d] + rest;
        assert ([d] + rest)[1..] == rest;
      } else {
        assert Datasets(es) == rest;
      }
    }
  }

  /** A class the datasets do not mention keeps its entry. */
  lemma {:induction false} StoreListUntouched(storage: map<Class, Option<Frame>>, ds: seq<(Class, Frame)>, c: Class)
    requires forall k :: 0 <= k < |ds| ==> ds[k].1.WellFormed()
    requires c in storage && forall k :: 0 <= k < |ds| ==> ds[k].0 != c
    ensures c in StoreList(storage, ds) && StoreList(storage, ds)[c] == storage[c]
    decreases |ds|
  {
    if ds != [] {
      StoreListUntouched(storage[ds[0].0 := Some(ActivityFilter(ds[0].1))], ds[1..], c);
    }
  }

  /** A class mentioned once, by the dataset at `k`, ends up with that frame filtered. */
  lemma {:induction false} StoreListStored(storage: map<Class, Option<Frame>>, ds: seq<(Class, Frame)>, k: nat)
    requires forall l :: 0 <= l < |ds| ==> ds[l].1.WellFormed()
    requires k < |ds| && forall l :: 0 <= l < |ds| && l != k ==> ds[l].0 != ds[k].0
    ensures ds[k].0 in StoreList(storage, ds) && StoreList(storage, ds)[ds[k].0] == Some(ActivityFilter(ds[k].1))
    decreases |ds|
  {
    var next := storage[ds[0].0 := Some(ActivityFilter(ds[0].1))];
    if k == 0 {
      StoreListUntouched(next, ds[1..], ds[0].0);
    } else {
      StoreListStored(next, ds[1..], k - 1);
    }
  }

  lemma FramesWellFormedAppend(a: seq<Event>, b: seq<Event>)
    requires FramesWellFormed(a) && FramesWellFormed(b)
    ensures FramesWellFormed(a + b)
  {
    forall k | 0 <= k < |a + b| && (a + b)[k].Dataset? ensures (a + b)[k].frame.WellFormed() {
      if k >= |a| {
        assert (a + b)[k] == b[k - |a|];
      }
    }
  }

  lemma {:induction false} ClassesWellFormed(cs: seq<Class>, outcome: Outcomes)
    requires OutcomesWellFormed(outcome)
    ensures FramesWellFormed(AllClassEvents(cs, outcome))
  {
    if cs != [] {
      ClassesWellFormed(cs[1..], outcome);
      var head := ClassEvents(cs[0], outcome.Of(cs[0]));
      assert FramesWellFormed(head);
      FramesWellFormedAppend(head, AllClassEvents(cs[1..], outcome));
    }
  }

  lemma RunWellFormed(connect: Connect, outcome: Outcomes, clock: string)
    requires OutcomesWellFormed(outcome)
    ensures FramesWellFormed(Run(connect, outcome, clock))
  {
    var start := [Status("Conectando a SHDA..."), Progress(10)];
    if connect.Connected? {
      var mid := [Status("Conectado. Obteniendo datos..."), Progress(20)];
      var body := AllClassEvents(Classes, outcome);
      var tail := [Progress(100), Status("Datos actualizados - " + clock)];
      ClassesWellFormed(Classes, outcome);
      FramesWellFormedAppend(body, tail);
      FramesWellFormedAppend(mid, body + tail);
      FramesWellFormedAppend(start, mid + (body + tail));
      assert Run(connect, outcome, clock) == start + (mid + (body + tail));
    } else {
      assert FramesWellFormed(Run(connect, outcome, clock));
    }
  }

  /** After a connected run every class whose request delivered a frame stores that frame
      filtered by activity, and every other class keeps what it had; a failed connection
      leaves the storage as it was. */
  lemma RunStorage(connect: Connect, outcome: Outcomes, clock: string, storage: map<Class, Option<Frame>>)
    requires OutcomesWellFormed(outcome) && Total(storage)
    ensures FramesWellFormed(Run(connect, outcome, clock))
    ensures var after := StoreAll(storage, Run(connect, outcome, clock));
            Total(after) &&
            forall c: Class :: after[c] ==
              if connect.Connected? && Delivers(outcome.Of(c)) then Some(ActivityFilter(outcome.Of(c).frame))
              else storage[c]
  {
    var es := Run(connect, outcome, clock);
    RunWellFormed(connect, outcome, clock);
    StoreAllDatasets(storage, es);
    var ds := Datasets(es);
    if connect.Connected? {
      RunDatasets(outcome, clock);
      StoreDelivered(storage, ds, outcome);
    } else {
      RunFailed(connect.message, outcome, clock);
    }
  }

  /** Storing the datasets of a connected run: each class delivered once, in request order. */
  lemma StoreDelivered(storage: map<Class, Option<Frame>>, ds: seq<(Class, Frame)>, outcome: Outcomes)
    requires Total(storage) && forall k :: 0 <= k < |ds| ==> ds[k].1.WellFormed()
    requires Faithful(ds, outcome) && Covers(ds, Classes, outcome) && AscendingRank(ds)
    ensures forall c: Class :: StoreList(storage, ds)[c] ==
              if Delivers(outcome.Of(c)) then Some(ActivityFilter(outcome.Of(c).frame)) else storage[c]
  {
    forall c: Class ensures StoreList(storage, ds)[c] ==
      if Delivers(outcome.Of(c)) then Some(ActivityFilter(outcome.Of(c).frame)) else storage[c]
    {
      StoreOne(storage, ds, outcome, c);
    }
  }

  lemma StoreOne(storage: map<Class, Option<Frame>>, ds: seq<(Class, Frame)>, outcome: Outcomes, c: Class)
    requires Total(storage) && forall k :: 0 <= k < |ds| ==> ds[k].1.WellFormed()
    requires Faithful(ds, outcome) && Covers(ds, Classes, outcome) && AscendingRank(ds)
    ensures StoreList(storage, ds)[c] ==
              if Delivers(outcome.Of(c)) then Some(ActivityFilter(outcome.Of(c).frame)) else storage[c]
  {
    if Delivers(outcome.Of(c)) {
      assert c in Classes by {
        assert Classes[Rank(c)] == c;
      }
      var k :| 0 <= k < |ds| && ds[k] == (c, outcome.Of(c).frame);
      OnlyOnce(ds, k);
      StoreListStored(storage, ds, k);
    } else {
      StoreListUntouched(storage, ds, c);
    }
  }

  /** Datasets in strictly increasing request order name each class at most once. */
  lemma OnlyOnce(ds: seq<(Class, Frame)>, k: nat)
    requires AscendingRank(ds) && k < |ds|
    ensures forall l :: 0 <= l < |ds| && l != k ==> ds[l].0 != ds[k].0
  {
    forall l | 0 <= l < |ds| && l != k ensures ds[l].0 != ds[k].0 {
      if l < k {
        assert Rank(ds[l].0) < Rank(ds[k].0);
      } else {
        assert Rank(ds[k].0) < Rank(ds[l].0);
      }
    }
  }

  /** The window's state: whether a worker is running and how many were started, the
      progress bar, the fetch button, the status line, the errors shown, the stored frames,
      the tables and the charts. */
  class Window {
    var workerRunning: bool
    var workersStarted: nat
    var progress: int
    var progressVisible: bool
    var fetchEnabled: bool
    var status: string
    var errorsShown: seq<string>
    var storage: map<Class, Option<Frame>>
    var tables: map<Class, Table>
    /** `plot_widgets`: one chart per class. */
    var plots: map<Class, PlotWidget>

    /** Every class has its own chart, and no two classes share one. */
    ghost predicate Charts()
      reads this
    {
      (forall c: Class :: c in plots) &&
      (forall c: Class, d: Class :: c in plots && d in plots && c != d ==> plots[c] != plots[d])
    }

    /** The window as `__init__` leaves it: nothing stored, empty tables, fresh empty charts,
        and the first fetch started. */
    constructor ()
      ensures Total(storage) && forall c: Class :: storage[c].None?
      ensures forall c: Class :: c in tables && tables[c] == Cleared
      ensures Charts() && forall c: Class :: fresh(plots[c]) && plots[c].Valid() && !plots[c].hasScatter
      ensures workerRunning && workersStarted == 1
      ensures progress == 0 && progressVisible && !fetchEnabled
      ensures status == "" && errorsShown == []
    {
      var charts := NewCharts();
      storage := map[Bluechips := None, Galpones := None, Bonds := None, Cedears := None, ShortTermBonds := None];
      tables := map[Bluechips := Cleared, Galpones := Cleared, Bonds := Cleared, Cedears := Cleared, ShortTermBonds := Cleared];
      workerRunning := false;
      workersStarted := 0;
      progress := 0;
      progressVisible := false;
      fetchEnabled := true;
      status := "";
      errorsShown := [];
      plots := charts;
      new;
      forall c: Class
        ensures c in storage && storage[c].None? && c in tables && tables[c] == Cleared
      {
        match c
        case Bluechips =>
        case Bonds =>
        case Cedears =>
        case ShortTermBonds =>
        case Galpones =>
      }
      FetchData();
    }

    /** One fresh, empty chart per class. */
    static method NewCharts() returns (m: map<Class, PlotWidget>)
      ensures forall c: Class :: c in m && fresh(m[c]) && m[c].Valid() && !m[c].hasScatter
      ensures forall c: Class, d: Class :: c in m && d in m && c != d ==> m[c] != m[d]
    {
      var p0 := new PlotWidget();
      var p1 := new PlotWidget();
      var p2 := new PlotWidget();
      var p3 := new PlotWidget();
      var p4 := new PlotWidget();
      assert p0 != p1 && p0 != p2 && p0 != p3 && p0 != p4 && p1 != p2;
      assert p1 != p3 && p1 != p4 && p2 != p3 && p2 != p4 && p3 != p4;
      m := ChartMap(p0, p1, p2, p3, p4);
      forall c: Class ensures c in m && fresh(m[c]) && m[c].Valid() && !m[c].hasScatter {
        match c
        case Bluechips =>
        case Bonds =>
        case Cedears =>
        case ShortTermBonds =>
        case Galpones =>
      }
    }

    /** The map from each class to its own chart. */
    static function ChartMap(p0: PlotWidget, p1: PlotWidget, p2: PlotWidget, p3: PlotWidget, p4: PlotWidget): (m: map<Class, PlotWidget>)
      requires p0 != p1 && p0 != p2 && p0 != p3 && p0 != p4 && p1 != p2
      requires p1 != p3 && p1 != p4 && p2 != p3 && p2 != p4 && p3 != p4
      ensures Bluechips in m && Galpones in m && Bonds in m && Cedears in m && ShortTermBonds in m
      ensures m[Bluechips] == p0 && m[Galpones] == p1 && m[Bonds] == p2
      ensures m[Cedears] == p3 && m[ShortTermBonds] == p4
      ensures forall c: Class, d: Class :: c in m && d in m && c != d ==> m[c] != m[d]
    {
      map[Bluechips := p0, Galpones := p1, Bonds := p2, Cedears := p3, ShortTermBonds := p4]
    }

    /** `fetch_data`: does nothing while a worker runs; otherwise shows the progress bar at
        0, disables the button and starts a new worker. */
    method FetchData()
      modifies this`workerRunning, this`workersStarted, this`progress, this`progressVisible, this`fetchEnabled
      ensures old(workerRunning) ==>
                workerRunning && workersStarted == old(workersStarted) && progress == old(progress) &&
                progressVisible == old(progressVisible) && fetchEnabled == old(fetchEnabled)
      ensures !old(workerRunning) ==>
                workerRunning && workersStarted == old(workersStarted) + 1 && progress == 0 &&
                progressVisible && !fetchEnabled
    {
      if workerRunning {
        return;
      }
      progressVisible := true;
      progress := 0;
      fetchEnabled := false;
      workerRunning := true;
      workersStarted := workersStarted + 1;
    }

    /** The worker's thread ends and `on_worker_finished` hides the bar and enables the
        button. */
    method OnWorkerFinished()
      modifies this`workerRunning, this`progressVisible, this`fetchEnabled
      ensures !workerRunning && !progressVisible && fetchEnabled
    {
      workerRunning := false;
      progressVisible := false;
      fetchEnabled := true;
    }

    /** `update_table`: the class's table shows `data`. */
    method UpdateTable(cls: Class, data: Option<Frame>, render: Cell -> string, parse: string -> Option<real>)
      requires data.Some? ==> data.value.WellFormed()
      modifies this`tables
      ensures tables == old(tables)[cls := TableOf(data, render, parse)]
    {
      var t := Cleared;
      if data.Some? && !data.value.Empty() {
        t := BuildTable(data.value, render, parse);
      }
      tables := tables[cls := t];
    }

    /** `update_data`: filter by activity, store, then refresh the class's table and chart. */
    method UpdateData(cls: Class, data: Frame, fit: View,
                      render: Cell -> string, parse: string -> Option<real>,
                      turnoverDraw: nat -> real, changeDraw: nat -> real)
      requires data.WellFormed() && cls in plots
      modifies this`storage, this`tables, plots[cls]
      ensures storage == old(storage)[cls := Some(ActivityFilter(data))]
      ensures tables == old(tables)[cls := TableOf(Some(ActivityFilter(data)), render, parse)]
      ensures var plot := plots[cls]; plot.Valid() && plot.highlighted.None?
      ensures var plot := plots[cls];
              var f := ActivityFilter(data);
              var rows := if f.Empty() then [] else PrepareData(f, turnoverDraw, changeDraw);
              (rows == [] ==> !plot.hasScatter && plot.original == old(plot.original) && plot.df == old(plot.df)) &&
              (rows != [] ==> plot.Shows(rows, fit, old(plot.hBar), old(plot.vBar)))
    {
      var filtered := ActivityFilter(data);
      storage := storage[cls := Some(filtered)];
      UpdateTable(cls, Some(filtered), render, parse);
      Replot(plots[cls], filtered, fit, turnoverDraw, changeDraw);
    }

    /** `update_plot`: the class's chart plots the filtered frame. */
    static method Replot(plot: PlotWidget, f: Frame, fit: View, turnoverDraw: nat -> real, changeDraw: nat -> real)
      requires f.WellFormed()
      modifies plot
      ensures plot.Valid() && plot.highlighted.None?
      ensures var rows := if f.Empty() then [] else PrepareData(f, turnoverDraw, changeDraw);
              (rows == [] ==> !plot.hasScatter && plot.original == old(plot.original) && plot.df == old(plot.df)) &&
              (rows != [] ==> plot.Shows(rows, fit, old(plot.hBar), old(plot.vBar)))
    {
      plot.PlotBubbleChart(Some(f), fit, turnoverDraw, changeDraw);
    }

    /** One signal of the worker reaching the window. Only a dataset touches a chart, and only
        the chart of its own class. */
    method Deliver(e: Event, fit: View,
                   render: Cell -> string, parse: string -> Option<real>,
                   turnoverDraw: nat -> real, changeDraw: nat -> real)
      requires e.Dataset? ==> e.frame.WellFormed() && e.cls in plots
      modifies this`status, this`progress, this`errorsShown, this`storage, this`tables
      modifies if e.Dataset? then {plots[e.cls]} else {}
      ensures storage == Store(old(storage), e)
      ensures e.Status? ==> status == e.text
      ensures e.Progress? ==> progress == e.percent
      ensures e.Error? ==> status == "Error: " + e.text && errorsShown == old(errorsShown) + [e.text]
      ensures !e.Error? ==> errorsShown == old(errorsShown)
      ensures !e.Progress? ==> progress == old(progress)
      ensures !e.Status? && !e.Error? ==> status == old(status)
      ensures e.Dataset? ==> tables == old(tables)[e.cls := TableOf(Some(ActivityFilter(e.frame)), render, parse)]
      ensures !e.Dataset? ==> tables == old(tables) && unchanged(plots.Values)
      ensures e.Dataset? ==>
                var plot := plots[e.cls];
                var f := ActivityFilter(e.frame);
                var rows := if f.Empty() then [] else PrepareData(f, turnoverDraw, changeDraw);
                plot.Valid() && plot.highlighted.None? &&
                (rows == [] ==> !plot.hasScatter && plot.original == old(plot.original) && plot.df == old(plot.df)) &&
                (rows != [] ==> plot.Shows(rows, fit, old(plot.hBar), old(plot.vBar)))
    {
      match e
      case Status(text) =>
        status := text;
      case Progress(p) =>
        progress := p;
      case Error(text) =>
        errorsShown := errorsShown + [text];
        status := "Error: " + text;
      case Dataset(cls, frame) =>
        UpdateData(cls, frame, fit, render, parse, turnoverDraw, changeDraw);
    }

    /** `on_table_cell_clicked`: find the symbol column among the headers and highlight the
        clicked row's symbol on the class's chart; nothing happens without such a column or
        outside the table. */
    method OnTableCellClicked(cls: Class, row: int)
      requires cls in tables && cls in plots && plots[cls].Valid()
      modifies (plots[cls] as PlotWidget)`highlighted, plots[cls].edges, plots[cls].widths
      ensures plots[cls].Valid()
      ensures var plot := plots[cls];
              var t := tables[cls];
              var j := SymbolColumnIndex(t.headers);
              if j != -1 && 0 <= row < |t.items| && j < |t.items[row]| && plot.hasScatter then
                plot.Styling() == Step(old(plot.Styling()), Symbols(plot.df.value), plot.faces, Some(t.items[row][j].text))
              else
                plot.Styling() == old(plot.Styling())
    {
      var t := tables[cls];
      var j := SymbolColumnIndex(t.headers);
      if j == -1 || row < 0 || row >= |t.items| || j >= |t.items[row]| {
        return;
      }
      plots[cls].HighlightSymbol(Some(t.items[row][j].text));
    }
  }

  /** The table of a frame that is not empty, built row by row and cell by cell. */
  method BuildTable(f: Frame, render: Cell -> string, parse: string -> Option<real>) returns (t: Table)
    requires f.WellFormed() && !f.Empty()
    ensures t == TableOf(Some(f), render, parse)
  {
    var cols := Shown(f.columns);
    var rows: seq<seq<Item>> := [];
    var i := 0;
    while i < |f.index|
      invariant 0 <= i <= |f.index| && |rows| == i
      invariant forall r :: 0 <= r < i ==> rows[r] == RowItems(cols, r, render, parse)
    {
      var row: seq<Item> := [];
      var j := 0;
      while j < |cols|
        invariant 0 <= j <= |cols| && |row| == j
        invariant forall k :: 0 <= k < j ==> row[k] == ItemOf(cols[k].cells[i], render, parse)
      {
        row := row + [ItemOf(cols[j].cells[i], render, parse)];
        j := j + 1;
      }
      rows := rows + [row];
      i := i + 1;
    }
    t := Table(Names(cols), rows);
  }
}
