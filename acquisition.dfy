/** The worker's run (`connect_and_fetch_data`) as the sequence of signals it emits, given
    the outcome of connecting and of each of the five requests. */
module Acquisition {
  import opened Frames

  /** The five instrument classes, in the order the worker requests them. */
  datatype Class = Bluechips | Bonds | Cedears | ShortTermBonds | Galpones

  const Classes: seq<Class> := [Bluechips, Bonds, Cedears, ShortTermBonds, Galpones]

  /** What connecting did: succeeded, or raised with the given message. */
  datatype Connect = Connected | ConnectFailed(message: string)

  /** What one request did: raised, returned None, or returned a data frame. */
  datatype Fetch = Raised | NoData | Got(frame: Frame)

  /** What each of the five requests did. */
  datatype Outcomes = Outcomes(bluechips: Fetch, bonds: Fetch, cedears: Fetch, shortTermBonds: Fetch, galpones: Fetch)
  {
    function Of(c: Class): Fetch
    {
      match c
      case Bluechips => bluechips
      case Bonds => bonds
      case Cedears => cedears
      case ShortTermBonds => shortTermBonds
      case Galpones => galpones
    }
  }

  /** The signals: status text, progress percentage, a dataset of a class, an error text. */
  datatype Event = Status(text: string) | Progress(percent: int) | Dataset(cls: Class, frame: Frame) | Error(text: string)

  function StatusText(c: Class): string
  {
    match c
    case Bluechips => "Obteniendo bluechips..."
    case Bonds => "Obteniendo bonos..."
    case Cedears => "Obteniendo CEDEARs..."
    case ShortTermBonds => "Obteniendo letras..."
    case Galpones => "Obteniendo Panel General..."
  }

  /** The progress reported once a class's request is done. */
  function ProgressAfter(c: Class): int
  {
    match c
    case Bluechips => 35
    case Bonds => 50
    case Cedears => 65
    case ShortTermBonds => 80
    case Galpones => 90
  }

  /** The position of a class in the request order. */
  function Rank(c: Class): (r: nat)
    ensures r < |Classes| && Classes[r] == c
  {
    match c
    case Bluechips => 0
    case Bonds => 1
    case Cedears => 2
    case ShortTermBonds => 3
    case Galpones => 4
  }

  /** Whether a request yields a dataset signal: a frame that is not empty. */
  predicate Delivers(f: Fetch)
  {
    f.Got? && !f.frame.Empty()
  }

  /** One request's block: its status; then, unless it raised, its dataset if it has one and
      its progress. */
  function ClassEvents(c: Class, f: Fetch): seq<Event>
  {
    [Status(StatusText(c))] +
    match f
    case Raised => []
    case NoData => [Progress(ProgressAfter(c))]
    case Got(frame) => (if frame.Empty() then [] else [Dataset(c, frame)]) + [Progress(ProgressAfter(c))]
  }

  function AllClassEvents(cs: seq<Class>, outcome: Outcomes): seq<Event>
  {
    if cs == [] then [] else ClassEvents(cs[0], outcome.Of(cs[0])) + AllClassEvents(cs[1..], outcome)
  }

  /** The whole run; `clock` is the wall-clock time the final status shows. */
  function Run(connect: Connect, outcome: Outcomes, clock: string): seq<Event>
  {
    [Status("Conectando a SHDA..."), Progress(10)] +
    match connect
    case ConnectFailed(msg) => [Error("Error conectando: " + msg)]
    case Connected =>
      [Status("Conectado. Obteniendo datos..."), Progress(20)] +
      AllClassEvents(Classes, outcome) +
      [Progress(100), Status("Datos actualizados - " + clock)]
  }

  /** The progress values in the order they are reported. */
  function Progresses(es: seq<Event>): seq<int>
  {
    if es == [] then []
    else (if es[0].Progress? then [es[0].percent] else []) + Progresses(es[1..])
  }

  /** The datasets in the order they are delivered. */
  function Datasets(es: seq<Event>): seq<(Class, Frame)>
  {
    if es == [] then []
    else (if es[0].Dataset? then [(es[0].cls, es[0].frame)] else []) + Datasets(es[1..])
  }

  function Errors(es: seq<Event>): seq<string>
  {
    if es == [] then []
    else (if es[0].Error? then [es[0].text] else []) + Errors(es[1..])
  }

  lemma {:induction false} ProgressesAppend(a: seq<Event>, b: seq<Event>)
    ensures Progresses(a + b) == Progresses(a) + Progresses(b)
  {
    if a == [] {
      assert a + b == b;
    } else {
      var h := if a[0].Progress? then [a[0].percent] else [];
      assert (a + b)[0] == a[0];
      assert (a + b)[1..] == a[1..] + b;
      ProgressesAppend(a[1..], b);
      assert Progresses(a + b) == h + Progresses(a[1..] + b);
      assert Progresses(a) == h + Progresses(a[1..]);
      assert (h + Progresses(a[1..])) + Progresses(b) == h + (Progresses(a[1..]) + Progresses(b));
    }
  }

  lemma {:induction false} DatasetsAppend(a: seq<Event>, b: seq<Event>)
    ensures Datasets(a + b) == Datasets(a) + Datasets(b)
  {
    if a == [] {
      assert a + b == b;
    } else {
      var h := if a[0].Dataset? then [(a[0].cls, a[0].frame)] else [];
      assert (a + b)[0] == a[0];
      assert (a + b)[1..] == a[1..] + b;
      DatasetsAppend(a[1..], b);
      assert Datasets(a + b) == h + Datasets(a[1..] + b);
      assert Datasets(a) == h + Datasets(a[1..]);
      assert (h + Datasets(a[1..])) + Datasets(b) == h + (Datasets(a[1..]) + Datasets(b));
    }
  }

  lemma {:induction false} ErrorsAppend(a: seq<Event>, b: seq<Event>)
    ensures Errors(a + b) == Errors(a) + Errors(b)
  {
    if a == [] {
      assert a + b == b;
    } else {
      var h := if a[0].Error? then [a[0].text] else [];
      assert (a + b)[0] == a[0];
      assert (a + b)[1..] == a[1..] + b;
      ErrorsAppend(a[1..], b);
      assert Errors(a + b) == h + Errors(a[1..] + b);
      assert Errors(a) == h + Errors(a[1..]);
      assert (h + Errors(a[1..])) + Errors(b) == h + (Errors(a[1..]) + Errors(b));
    }
  }

  /** One class's block: at most its own progress value, its dataset exactly when the
      request delivered one, and no error. */
  lemma ClassEventsFacts(c: Class, f: Fetch)
    ensures Progresses(ClassEvents(c, f)) == (if f.Raised? then [] else [ProgressAfter(c)])
    ensures Datasets(ClassEvents(c, f)) == (if Delivers(f) then [(c, f.frame)] else [])
    ensures Errors(ClassEvents(c, f)) == []
  {
    var st := [Status(StatusText(c))];
    var pr := [Progress(ProgressAfter(c))];
    match f
    case Raised =>
      assert ClassEvents(c, f) == st;
    case NoData =>
      assert ClassEvents(c, f) == st + pr;
      ProgressesAppend(st, pr);
      DatasetsAppend(st, pr);
      ErrorsAppend(st, pr);
    case Got(frame) =>
      var ds := if frame.Empty() then [] else [Dataset(c, frame)];
      assert ClassEvents(c, f) == st + (ds + pr);
      ProgressesAppend(st, ds + pr);
      DatasetsAppend(st, ds + pr);
      ErrorsAppend(st, ds + pr);
      ProgressesAppend(ds, pr);
      DatasetsAppend(ds, pr);
      ErrorsAppend(ds, pr);
  }

  predicate Increasing(s: seq<int>)
  {
    forall i, j :: 0 <= i < j < |s| ==> s[i] < s[j]
  }

  /** Classes in strictly increasing request order. */
  predicate InOrder(cs: seq<Class>)
  {
    forall i, j :: 0 <= i < j < |cs| ==> Rank(cs[i]) < Rank(cs[j])
  }

  lemma ClassesInOrder()
    ensures InOrder(Classes)
  {
    assert forall i :: 0 <= i < |Classes| ==> Rank(Classes[i]) == i;
  }

  lemma InOrderTail(cs: seq<Class>)
    requires InOrder(cs) && cs != []
    ensures InOrder(cs[1..])
    ensures |cs| >= 2 ==> Rank(cs[0]) < Rank(cs[1])
  {
    forall i, j | 0 <= i < j < |cs[1..]| ensures Rank(cs[1..][i]) < Rank(cs[1..][j]) {
      assert cs[1..][i] == cs[i + 1] && cs[1..][j] == cs[j + 1];
    }
  }

  lemma ConsIncreasing(x: int, s: seq<int>)
    requires Increasing(s) && forall k :: 0 <= k < |s| ==> x < s[k]
    ensures Increasing([x] + s)
  {
    var t := [x] + s;
    forall i, j | 0 <= i < j < |t| ensures t[i] < t[j] {
      if i > 0 {
        assert t[i] == s[i - 1] && t[j] == s[j - 1];
      } else {
        assert t[j] == s[j - 1];
      }
    }
  }

  lemma SnocIncreasing(s: seq<int>, x: int)
    requires Increasing(s) && forall k :: 0 <= k < |s| ==> s[k] < x
    ensures Increasing(s + [x])
  {
    var t := s + [x];
    forall i, j | 0 <= i < j < |t| ensures t[i] < t[j] {
      assert t[i] == s[i];
    }
  }

  /** The blocks of classes in request order report strictly increasing progress, strictly
      between 20 and 100 and from their first class's value on, and no error. */
  lemma {:induction false} ClassProgress(cs: seq<Class>, outcome: Outcomes)
    requires InOrder(cs)
    ensures Increasing(Progresses(AllClassEvents(cs, outcome)))
    ensures forall k :: 0 <= k < |Progresses(AllClassEvents(cs, outcome))| ==>
              20 < Progresses(AllClassEvents(cs, outcome))[k] < 100
    ensures cs != [] ==> forall k :: 0 <= k < |Progresses(AllClassEvents(cs, outcome))| ==>
              ProgressAfter(cs[0]) <= Progresses(AllClassEvents(cs, outcome))[k]
    ensures Errors(AllClassEvents(cs, outcome)) == []
  {
    if cs != [] {
      ProgressesOfCons(cs, outcome);
      InOrderTail(cs);
      ClassProgress(cs[1..], outcome);
      var pr := Progresses(AllClassEvents(cs[1..], outcome));
      if 2 <= |cs| {
        RankedProgress(cs[0], cs[1]);
      }
      assert 20 < ProgressAfter(cs[0]) < 100;
      PrefixBound(if outcome.Of(cs[0]).Raised? then [] else [ProgressAfter(cs[0])], pr, ProgressAfter(cs[0]));
    }
  }

  /** The progress values and errors of the blocks of one class and then of `cs`. */
  lemma ProgressesOfCons(cs: seq<Class>, outcome: Outcomes)
    requires cs != []
    ensures Progresses(AllClassEvents(cs, outcome)) ==
            (if outcome.Of(cs[0]).Raised? then [] else [ProgressAfter(cs[0])]) +
            Progresses(AllClassEvents(cs[1..], outcome))
    ensures Errors(AllClassEvents(cs, outcome)) == Errors(AllClassEvents(cs[1..], outcome))
  {
    var head := ClassEvents(cs[0], outcome.Of(cs[0]));
    var rest := AllClassEvents(cs[1..], outcome);
    assert AllClassEvents(cs, outcome) == head + rest;
    ProgressesAppend(head, rest);
    ErrorsAppend(head, rest);
    ClassEventsFacts(cs[0], outcome.Of(cs[0]));
  }

  /** Later classes report higher progress. */
  lemma RankedProgress(c: Class, d: Class)
    requires Rank(c) < Rank(d)
    ensures 20 < ProgressAfter(c) < ProgressAfter(d) < 100
  {
  }

  /** Putting at most one value below an increasing run keeps it increasing and bounded. */
  lemma PrefixBound(ph: seq<int>, pr: seq<int>, a: int)
    requires ph == [] || ph == [a]
    requires 20 < a < 100
    requires Increasing(pr)
    requires forall k :: 0 <= k < |pr| ==> a < pr[k] < 100
    ensures Increasing(ph + pr)
    ensures forall k :: 0 <= k < |ph + pr| ==> a <= (ph + pr)[k] && 20 < (ph + pr)[k] < 100
  {
    if ph == [a] {
      ConsIncreasing(a, pr);
    } else {
      assert ph + pr == pr;
    }
  }

  /** A connected run reports progress 10, then 20, then increasing values below 100, and
      ends with 100, which is reported once, and with the final status; it signals no
      error. */
  lemma RunConnected(outcome: Outcomes, clock: string)
    ensures var es := Run(Connected, outcome, clock);
            var p := Progresses(es);
            Increasing(p) && |p| >= 3 && p[0] == 10 && p[1] == 20 && p[|p| - 1] == 100 &&
            (forall k :: 0 <= k < |p| - 1 ==> p[k] < 100) &&
            Errors(es) == [] && es[|es| - 1] == Status("Datos actualizados - " + clock)
  {
    var es := Run(Connected, outcome, clock);
    var start := [Status("Conectando a SHDA..."), Progress(10)];
    var mid := [Status("Conectado. Obteniendo datos..."), Progress(20)];
    var body := AllClassEvents(Classes, outcome);
    var tail := [Progress(100), Status("Datos actualizados - " + clock)];
    assert es == start + (mid + (body + tail));
    ProgressesAppend(start, mid + (body + tail));
    ProgressesAppend(mid, body + tail);
    ProgressesAppend(body, tail);
    ErrorsAppend(start, mid + (body + tail));
    ErrorsAppend(mid, body + tail);
    ErrorsAppend(body, tail);
    ClassesInOrder();
    ClassProgress(Classes, outcome);
    ProgressesAppend([Progress(100)], [Status("Datos actualizados - " + clock)]);
    ErrorsAppend([Progress(100)], [Status("Datos actualizados - " + clock)]);
    assert Progresses(start) == [10] && Progresses(mid) == [20] && Progresses(tail) == [100];
    assert Errors(start) == [] && Errors(mid) == [] && Errors(tail) == [];
    var pb := Progresses(body);
    assert Progresses(es) == [10] + ([20] + (pb + [100]));
    Framed(pb);
  }

  /** 10 and 20 before and 100 after an increasing run of values strictly between. */
  lemma Framed(pb: seq<int>)
    requires Increasing(pb)
    requires forall k :: 0 <= k < |pb| ==> 20 < pb[k] < 100
    ensures var p := [10] + ([20] + (pb + [100]));
            Increasing(p) && |p| >= 3 && p[0] == 10 && p[1] == 20 && p[|p| - 1] == 100 &&
            (forall k :: 0 <= k < |p| - 1 ==> p[k] < 100)
  {
    SnocIncreasing(pb, 100);
    ConsIncreasing(20, pb + [100]);
    ConsIncreasing(10, [20] + (pb + [100]));
    var p := [10] + ([20] + (pb + [100]));
    forall k | 2 <= k < |p| - 1 ensures p[k] < 100 {
      assert p[k] == pb[k - 2];
    }
  }

  /** A run whose connection fails reports progress 10 only, no dataset, and one error
      naming the failure. */
  lemma RunFailed(msg: string, outcome: Outcomes, clock: string)
    ensures var es := Run(ConnectFailed(msg), outcome, clock);
            Progresses(es) == [10] && Datasets(es) == [] && Errors(es) == ["Error conectando: " + msg] &&
            es == [Status("Conectando a SHDA..."), Progress(10), Error("Error conectando: " + msg)]
  {
    var start := [Status("Conectando a SHDA..."), Progress(10)];
    var err := [Error("Error conectando: " + msg)];
    ProgressesAppend(start, err);
    ErrorsAppend(start, err);
    DatasetsAppend(start, err);
    assert Progresses(start) == [10] && Errors(start) == [] && Datasets(start) == [];
  }

  /** A connected run delivers exactly the non-empty frames the requests returned, each
      once and in request order. */
  lemma RunDatasets(outcome: Outcomes, clock: string)
    ensures var ds := Datasets(Run(Connected, outcome, clock));
            Faithful(ds, outcome) && Covers(ds, Classes, outcome) && AscendingRank(ds)
  {
    var es := Run(Connected, outcome, clock);
    var start := [Status("Conectando a SHDA..."), Progress(10)];
    var mid := [Status("Conectado. Obteniendo datos..."), Progress(20)];
    var body := AllClassEvents(Classes, outcome);
    var tail := [Progress(100), Status("Datos actualizados - " + clock)];
    assert es == start + (mid + (body + tail));
    DatasetsAppend(start, mid + (body + tail));
    DatasetsAppend(mid, body + tail);
    DatasetsAppend(body, tail);
    DatasetsAppend([Progress(100)], [Status("Datos actualizados - " + clock)]);
    assert Datasets(start) == [] && Datasets(mid) == [] && Datasets(tail) == [];
    assert Datasets(es) == DatasetsOf(Classes, outcome);
    ClassesInOrder();
    ClassDatasets(Classes, outcome);
    ClassDatasetsOrdered(Classes, outcome);
  }

  function DatasetsOf(cs: seq<Class>, outcome: Outcomes): seq<(Class, Frame)>
  {
    Datasets(AllClassEvents(cs, outcome))
  }

  /** Each dataset is the non-empty frame its class's request returned. */
  predicate Faithful(ds: seq<(Class, Frame)>, outcome: Outcomes)
  {
    forall k :: 0 <= k < |ds| ==> Delivers(outcome.Of(ds[k].0)) && outcome.Of(ds[k].0).frame == ds[k].1
  }

  /** Every class of `cs` whose request delivered a frame has it among the datasets. */
  predicate Covers(ds: seq<(Class, Frame)>, cs: seq<Class>, outcome: Outcomes)
  {
    forall c :: c in cs && Delivers(outcome.Of(c)) ==> (c, outcome.Of(c).frame) in ds
  }

  predicate FromClasses(ds: seq<(Class, Frame)>, cs: seq<Class>)
  {
    forall k :: 0 <= k < |ds| ==> ds[k].0 in cs
  }

  /** The datasets come in request order, so no class comes twice. */
  predicate AscendingRank(ds: seq<(Class, Frame)>)
  {
    forall k, l :: 0 <= k < l < |ds| ==> Rank(ds[k].0) < Rank(ds[l].0)
  }

  /** The blocks of one class and then of `cs`. */
  lemma {:induction false} DatasetsOfCons(cs: seq<Class>, outcome: Outcomes)
    requires cs != []
    ensures DatasetsOf(cs, outcome) ==
            (if Delivers(outcome.Of(cs[0])) then [(cs[0], outcome.Of(cs[0]).frame)] else []) +
            DatasetsOf(cs[1..], outcome)
  {
    var head := ClassEvents(cs[0], outcome.Of(cs[0]));
    var rest := AllClassEvents(cs[1..], outcome);
    assert AllClassEvents(cs, outcome) == head + rest;
    DatasetsAppend(head, rest);
    ClassEventsFacts(cs[0], outcome.Of(cs[0]));
  }

  /** The datasets of the blocks of `cs` are exactly the frames of the requests of `cs`
      that delivered one. */
  lemma {:induction false} ClassDatasets(cs: seq<Class>, outcome: Outcomes)
    ensures Faithful(DatasetsOf(cs, outcome), outcome)
    ensures FromClasses(DatasetsOf(cs, outcome), cs)
    ensures Covers(DatasetsOf(cs, outcome), cs, outcome)
  {
    if cs != [] {
      ClassDatasets(cs[1..], outcome);
      DatasetsOfCons(cs, outcome);
      ConsDatasets(cs[0], cs[1..], DatasetsOf(cs[1..], outcome), outcome);
      assert [cs[0]] + cs[1..] == cs;
    }
  }

  lemma ConsDatasets(c: Class, cs: seq<Class>, dr: seq<(Class, Frame)>, outcome: Outcomes)
    requires Faithful(dr, outcome) && FromClasses(dr, cs) && Covers(dr, cs, outcome)
    ensures var dh := if Delivers(outcome.Of(c)) then [(c, outcome.Of(c).frame)] else [];
            Faithful(dh + dr, outcome) && FromClasses(dh + dr, [c] + cs) && Covers(dh + dr, [c] + cs, outcome)
  {
    var dh := if Delivers(outcome.Of(c)) then [(c, outcome.Of(c).frame)] else [];
    var all := dh + dr;
    forall k | 0 <= k < |all|
      ensures Delivers(outcome.Of(all[k].0)) && outcome.Of(all[k].0).frame == all[k].1
      ensures all[k].0 in [c] + cs
    {
      if k < |dh| {
        assert all[k] == (c, outcome.Of(c).frame);
      } else {
        assert all[k] == dr[k - |dh|];
      }
    }
    forall d | d in [c] + cs && Delivers(outcome.Of(d)) ensures (d, outcome.Of(d).frame) in all {
      if d == c {
        assert all[0] == (c, outcome.Of(c).frame);
      } else {
        assert d in cs;
        var i :| 0 <= i < |dr| && dr[i] == (d, outcome.Of(d).frame);
        assert all[|dh| + i] == dr[i];
      }
    }
  }

  /** For classes in request order the datasets come in that order. */
  lemma {:induction false} ClassDatasetsOrdered(cs: seq<Class>, outcome: Outcomes)
    requires InOrder(cs)
    ensures AscendingRank(DatasetsOf(cs, outcome))
  {
    if cs != [] {
      InOrderTail(cs);
      ClassDatasetsOrdered(cs[1..], outcome);
      ClassDatasets(cs[1..], outcome);
      var dr := DatasetsOf(cs[1..], outcome);
      forall k | 0 <= k < |dr| ensures Rank(cs[0]) < Rank(dr[k].0) {
        var m :| 0 <= m < |cs[1..]| && cs[1..][m] == dr[k].0;
        assert cs[m + 1] == dr[k].0;
      }
      DatasetsOfCons(cs, outcome);
      ConsAscending(cs[0], dr, if Delivers(outcome.Of(cs[0])) then [(cs[0], outcome.Of(cs[0]).frame)] else []);
    }
  }

  lemma ConsAscending(c: Class, dr: seq<(Class, Frame)>, dh: seq<(Class, Frame)>)
    requires AscendingRank(dr)
    requires forall k :: 0 <= k < |dr| ==> Rank(c) < Rank(dr[k].0)
    requires |dh| <= 1 && forall k :: 0 <= k < |dh| ==> dh[k].0 == c
    ensures AscendingRank(dh + dr)
  {
    var all := dh + dr;
    forall k, l | 0 <= k < l < |all| ensures Rank(all[k].0) < Rank(all[l].0) {
      if |dh| == 1 && k == 0 {
        assert all[l] == dr[l - 1];
      } else if |dh| == 1 {
        assert all[k] == dr[k - 1] && all[l] == dr[l - 1];
      } else {
        assert all == dr;
      }
    }
  }
}
