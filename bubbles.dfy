/** The bubble encoding of `plot_bubble_chart`: bubble sizes normalised from turnover,
    face colours from the sign of the change, and which points get a text label. */
module Bubbles {
  import opened RealArith

  /** The colours the chart uses: the three face colours and the highlight edges. */
  datatype Colour = White | Green | Red | DarkGreen | DarkRed | Yellow

  const MinSize: real := 100.0
  const MaxSize: real := 2000.0
  /** The size of the only bubble of a one-row chart. */
  const SingleSize: real := 500.0
  /** Charts up to this many rows label every point. */
  const LabelAllUpTo: nat := 15

  function Min(s: seq<real>): (m: real)
    requires |s| > 0
    ensures forall i :: 0 <= i < |s| ==> m <= s[i]
  {
    if |s| == 1 then s[0]
    else
      var m := Min(s[1..]);
      if s[0] <= m then s[0] else m
  }

  function Max(s: seq<real>): (m: real)
    requires |s| > 0
    ensures forall i :: 0 <= i < |s| ==> s[i] <= m
  {
    if |s| == 1 then s[0]
    else
      var m := Max(s[1..]);
      if s[0] >= m then s[0] else m
  }

  /** The smallest and the largest value are values of the sequence. */
  lemma {:induction false} Attained(s: seq<real>)
    requires |s| > 0
    ensures Min(s) in s && Max(s) in s
  {
    if |s| > 1 {
      Attained(s[1..]);
    }
  }

  /** Bubble sizes: a linear map of turnover onto 100..2000 when there is more than one
      row, all 100 when every turnover is the same, and a single 500 otherwise. */
  function Sizes(t: seq<real>): (r: seq<real>)
    ensures |t| > 1 ==> |r| == |t|
    ensures |t| <= 1 ==> r == [SingleSize]
  {
    if |t| > 1 then
      var lo := Min(t);
      var range := Max(t) - lo;
      if range > 0.0 then
        seq(|t|, i requires 0 <= i < |t| => Normalise(t[i], lo, range))
      else
        seq(|t|, i => MinSize)
    else [SingleSize]
  }

  /** The linear map of one turnover onto 100..2000. */
  function Normalise(x: real, lo: real, range: real): real
    requires range > 0.0
  {
    MinSize + (x - lo) * (MaxSize - MinSize) / range
  }

  lemma NormaliseBetween(x: real, lo: real, range: real)
    requires range > 0.0 && lo <= x <= lo + range
    ensures MinSize <= Normalise(x, lo, range) <= MaxSize
    ensures x == lo ==> Normalise(x, lo, range) == MinSize
    ensures x == lo + range ==> Normalise(x, lo, range) == MaxSize
  {
    MulAtMost(x - lo, range, MaxSize - MinSize);
    DivAtMost((x - lo) * (MaxSize - MinSize), range, MaxSize - MinSize);
    DivMonotone(0.0, (x - lo) * (MaxSize - MinSize), range);
    if x == lo + range {
      assert (x - lo) * (MaxSize - MinSize) == (MaxSize - MinSize) * range;
      DivCancel(MaxSize - MinSize, range);
    }
  }

  lemma NormaliseMonotone(x: real, y: real, lo: real, range: real)
    requires range > 0.0 && x <= y
    ensures Normalise(x, lo, range) <= Normalise(y, lo, range)
  {
    MulAtMost(x - lo, y - lo, MaxSize - MinSize);
    DivMonotone((x - lo) * (MaxSize - MinSize), (y - lo) * (MaxSize - MinSize), range);
  }

  /** Every size lies in 100..2000; the smallest turnover gets 100 and, when turnovers
      differ, the largest gets 2000; a larger turnover never gets a smaller bubble. */
  lemma SizesNormalised(t: seq<real>)
    requires |t| > 1
    ensures forall i :: 0 <= i < |t| ==> MinSize <= Sizes(t)[i] <= MaxSize
    ensures forall i :: 0 <= i < |t| && t[i] == Min(t) ==> Sizes(t)[i] == MinSize
    ensures Max(t) > Min(t) ==> forall i :: 0 <= i < |t| && t[i] == Max(t) ==> Sizes(t)[i] == MaxSize
    ensures forall i, j :: 0 <= i < |t| && 0 <= j < |t| && t[i] <= t[j] ==> Sizes(t)[i] <= Sizes(t)[j]
  {
    var lo, hi := Min(t), Max(t);
    var range := hi - lo;
    forall i | 0 <= i < |t|
      ensures MinSize <= Sizes(t)[i] <= MaxSize
      ensures t[i] == lo ==> Sizes(t)[i] == MinSize
      ensures range > 0.0 && t[i] == hi ==> Sizes(t)[i] == MaxSize
    {
      SizeAt(t, i);
      if range > 0.0 {
        NormaliseBetween(t[i], lo, range);
      }
    }
    forall i, j | 0 <= i < |t| && 0 <= j < |t| && t[i] <= t[j]
      ensures Sizes(t)[i] <= Sizes(t)[j]
    {
      SizeAt(t, i);
      SizeAt(t, j);
      if range > 0.0 {
        NormaliseMonotone(t[i], t[j], lo, range);
      }
    }
  }

  /** The size of one point of a chart of several rows. */
  lemma SizeAt(t: seq<real>, i: nat)
    requires |t| > 1 && i < |t|
    ensures Max(t) - Min(t) > 0.0 ==> Sizes(t)[i] == Normalise(t[i], Min(t), Max(t) - Min(t))
    ensures Max(t) - Min(t) <= 0.0 ==> Sizes(t)[i] == MinSize
  {
    var lo := Min(t);
    var range := Max(t) - lo;
    if range > 0.0 {
      var r := seq(|t|, k requires 0 <= k < |t| => Normalise(t[k], lo, range));
      assert Sizes(t) == r;
      assert r[i] == Normalise(t[i], lo, range);
    }
  }

  /** When every turnover is the same, every bubble has the minimum size. */
  lemma SizesFlat(t: seq<real>)
    requires |t| > 1
    requires forall i :: 0 <= i < |t| ==> t[i] == t[0]
    ensures Sizes(t) == seq(|t|, i => MinSize)
  {
    Attained(t);
    assert Max(t) == Min(t);
  }

  /** The face colour of one point: green for a gain, red for a loss, white otherwise. */
  function FaceColour(change: real): (c: Colour)
    ensures c == Green <==> change > 0.0
    ensures c == Red <==> change < 0.0
    ensures c == White <==> change == 0.0
  {
    if change > 0.0 then Green else if change < 0.0 then Red else White
  }

  /** The face colour list, point by point. */
  function FaceColours(changes: seq<real>): (r: seq<Colour>)
    ensures |r| == |changes|
    ensures forall i :: 0 <= i < |changes| ==> r[i] == FaceColour(changes[i])
  {
    if changes == [] then [] else [FaceColour(changes[0])] + FaceColours(changes[1..])
  }

  predicate Sorted(s: seq<real>)
  {
    forall i, j :: 0 <= i < j < |s| ==> s[i] <= s[j]
  }

  function Insert(x: real, s: seq<real>): (r: seq<real>)
    requires Sorted(s)
    ensures Sorted(r)
    ensures |r| == |s| + 1
    ensures multiset(r) == multiset(s) + multiset{x}
    ensures r[0] == x || (|s| > 0 && r[0] == s[0])
  {
    if s == [] then [x]
    else if x <= s[0] then [x] + s
    else
      assert s == [s[0]] + s[1..];
      [s[0]] + Insert(x, s[1..])
  }

  /** The ascending order of the values, on which the quantile is read. */
  function Sort(t: seq<real>): (s: seq<real>)
    ensures Sorted(s)
    ensures |s| == |t|
    ensures multiset(s) == multiset(t)
  {
    if t == [] then []
    else
      assert t == [t[0]] + t[1..];
      Insert(t[0], Sort(t[1..]))
  }

  /** The upper-quartile turnover as pandas' default `quantile(0.75)` computes it. */
  function Quantile75(t: seq<real>): real
    requires |t| > 0
  {
    UpperQuartileOfSorted(Sort(t))
  }

  /** Linear interpolation between the order statistics around position 0.75 (n - 1) of
      an ascending sequence. */
  function UpperQuartileOfSorted(s: seq<real>): real
    requires |s| > 0
  {
    var k := 3 * (|s| - 1);
    var i := k / 4;
    if k % 4 == 0 then s[i]
    else
      assert i + 1 < |s|;
      s[i] + (s[i + 1] - s[i]) * ((k % 4) as real / 4.0)
  }

  /** On an ascending sequence the interpolated quartile lies between the order
      statistic at position floor(0.75 (n - 1)) and the largest value. */
  lemma QuartileBetween(s: seq<real>)
    requires |s| > 0 && Sorted(s)
    ensures s[3 * (|s| - 1) / 4] <= UpperQuartileOfSorted(s) <= s[|s| - 1]
  {
    var k := 3 * (|s| - 1);
    var i := k / 4;
    assert k == 4 * i + k % 4;
    if k % 4 != 0 {
      assert i + 1 < |s|;
      var f := (k % 4) as real / 4.0;
      assert 0.0 <= f <= 1.0;
      var d := s[i + 1] - s[i];
      assert d >= 0.0 && s[i + 1] <= s[|s| - 1];
      MulAtMost(0.0, f, d);
      MulAtMost(f, 1.0, d);
      assert 0.0 <= d * f <= d;
      assert UpperQuartileOfSorted(s) == s[i] + d * f;
    } else {
      assert i < |s|;
    }
  }

  /** The quantile lies between the smallest and the largest turnover. */
  lemma QuantileBounds(t: seq<real>)
    requires |t| > 0
    ensures Min(t) <= Quantile75(t) <= Max(t)
  {
    var s := Sort(t);
    QuartileBetween(s);
    assert s[0] in multiset(s) && s[|t| - 1] in multiset(s);
    assert s[0] in t && s[|t| - 1] in t;
  }

  /** One flag per value: is it strictly above `q`? */
  function AboveFlags(t: seq<real>, q: real): (r: seq<bool>)
    ensures |r| == |t|
    ensures forall j :: 0 <= j < |t| ==> (r[j] <==> t[j] > q)
  {
    if t == [] then [] else [t[0] > q] + AboveFlags(t[1..], q)
  }

  /** Which points get a text label: all of them on a chart of at most 15 rows, otherwise
      those whose turnover is strictly above the upper quartile. */
  function Labelled(t: seq<real>): (r: seq<bool>)
    ensures |r| == |t|
  {
    if |t| <= LabelAllUpTo then seq(|t|, j => true)
    else AboveFlags(t, Quantile75(t))
  }

  function CountTrue(b: seq<bool>): nat
  {
    if b == [] then 0 else (if b[0] then 1 else 0) + CountTrue(b[1..])
  }

  function CountAbove(t: seq<real>, q: real): (n: nat)
    ensures n <= |t|
  {
    if t == [] then 0 else (if t[0] > q then 1 else 0) + CountAbove(t[1..], q)
  }

  lemma {:induction false} CountFlags(t: seq<real>, q: real)
    ensures CountTrue(AboveFlags(t, q)) == CountAbove(t, q)
  {
    if t != [] {
      CountFlags(t[1..], q);
      assert AboveFlags(t, q)[1..] == AboveFlags(t[1..], q);
    }
  }

  lemma {:induction false} CountInsert(x: real, s: seq<real>, q: real)
    requires Sorted(s)
    ensures CountAbove(Insert(x, s), q) == CountAbove(s, q) + (if x > q then 1 else 0)
  {
    if s != [] && x > s[0] {
      CountInsert(x, s[1..], q);
      assert Insert(x, s)[1..] == Insert(x, s[1..]);
    } else if s != [] {
      assert Insert(x, s)[1..] == s;
    }
  }

  lemma {:induction false} CountSort(t: seq<real>, q: real)
    ensures CountAbove(Sort(t), q) == CountAbove(t, q)
  {
    if t != [] {
      CountSort(t[1..], q);
      CountInsert(t[0], Sort(t[1..]), q);
    }
  }

  lemma {:induction false} CountAboveSorted(s: seq<real>, i: nat, q: real)
    requires Sorted(s) && i < |s| && s[i] <= q
    ensures CountAbove(s, q) <= |s| - 1 - i
  {
    assert s[0] <= q;
    if i > 0 {
      CountAboveSorted(s[1..], i - 1, q);
    }
  }

  /** On a chart of more than 15 rows at most n - 1 - floor(0.75 (n - 1)) points, about a
      quarter, are labelled, and a point with the smallest turnover never is. */
  lemma LabelsLimited(t: seq<real>)
    requires |t| > LabelAllUpTo
    ensures |Labelled(t)| == |t|
    ensures CountTrue(Labelled(t)) <= |t| - 1 - 3 * (|t| - 1) / 4
    ensures forall j :: 0 <= j < |t| && t[j] == Min(t) ==> !Labelled(t)[j]
  {
    var q := Quantile75(t);
    var s := Sort(t);
    var i := 3 * (|t| - 1) / 4;
    QuartileBetween(s);
    CountAboveSorted(s, i, q);
    CountSort(t, q);
    CountFlags(t, q);
    assert Labelled(t) == AboveFlags(t, q);
    QuantileBounds(t);
  }

  /** The three-row chart of equal turnover: equal minimum sizes, one colour per sign,
      every point labelled. */
  lemma ThreeEqualRows()
    ensures Sizes([100.0, 100.0, 100.0]) == [MinSize, MinSize, MinSize]
    ensures FaceColours([2.0, -2.0, 0.0]) == [Green, Red, White]
    ensures Labelled([100.0, 100.0, 100.0]) == [true, true, true]
  {
    SizesFlat([100.0, 100.0, 100.0]);
  }
}
