/**
 * The computations inside the history chart (www/history.js): the unified
 * time axis, the power scale maximum, the mappings from time and value to
 * canvas coordinates, and the energy sum of the summary cards. Samples are
 * `[timestamp, value]` pairs with integer millisecond timestamps; values are
 * exact reals.
 */
module History {
  import opened Wrappers
  import opened JsValues

  /** One `[t, v]` point of a series. */
  datatype Sample = Sample(t: int, v: real)

  /** The series a history response carries, and the range it was asked for. */
  datatype HistoryData = HistoryData(series: map<string, seq<Sample>>, start: int, end: int)

  /** What `draw` goes on to plot with: the time axis and the power scale maximum. */
  datatype Scales = Scales(xs: seq<int>, maxW: real)

  /** Canvas margins: left, right, top, bottom. */
  const L: real := 50.0
  const R: real := 40.0
  const T: real := 10.0
  const B: real := 26.0

  /** The power series that set the scale, in the order `draw` visits them. */
  const PowerKeys: seq<string> := ["pv", "load", "buy", "sell", "chg", "dchg"]

  function Abs(x: real): real {
    if x < 0.0 then -x else x
  }

  /** `Math.max(a, b)` on finite values, written as `draw`'s running maximum does it. */
  function RMax(a: real, b: real): real {
    if b > a then b else a
  }

  predicate StrictlyIncreasing(xs: seq<int>) {
    forall i, j :: 0 <= i < j < |xs| ==> xs[i] < xs[j]
  }

  // ---------------------------------------------------------------------
  // The unified time axis

  function TimesOf(samples: seq<Sample>): set<int> {
    set i | 0 <= i < |samples| :: samples[i].t
  }

  /** The timestamps of the series named in `keys`. */
  function TimesIn(series: map<string, seq<Sample>>, keys: set<string>): set<int> {
    set k, i | k in keys && k in series && 0 <= i < |series[k]| :: series[k][i].t
  }

  /** Every timestamp of every series. */
  function AllTimes(series: map<string, seq<Sample>>): set<int> {
    TimesIn(series, series.Keys)
  }

  lemma TimesOfSnoc(samples: seq<Sample>, j: nat)
    requires j < |samples|
    ensures TimesOf(samples[..j + 1]) == TimesOf(samples[..j]) + {samples[j].t}
  {
    var a := samples[..j + 1];
    assert a[j] == samples[j];
    forall t | t in TimesOf(a) ensures t in TimesOf(samples[..j]) + {samples[j].t} {
      var i :| 0 <= i < |a| && a[i].t == t;
      if i < j { assert samples[..j][i] == a[i]; }
    }
    forall t | t in TimesOf(samples[..j]) ensures t in TimesOf(a) {
      var i :| 0 <= i < j && samples[..j][i].t == t;
      assert a[i] == samples[..j][i];
    }
  }

  lemma TimesInAdd(series: map<string, seq<Sample>>, keys: set<string>, k: string)
    requires k in series
    ensures TimesIn(series, keys + {k}) == TimesIn(series, keys) + TimesOf(series[k])
  {
    assert series[k][..|series[k]|] == series[k];
    forall t | t in TimesIn(series, keys + {k}) ensures t in TimesIn(series, keys) + TimesOf(series[k]) {
      var k', i :| k' in keys + {k} && k' in series && 0 <= i < |series[k']| && series[k'][i].t == t;
      if k' != k { assert t in TimesIn(series, keys); }
    }
  }

  /** The nested `forEach` of `draw` that adds every sample time to a `Set`. */
  method CollectTimes(series: map<string, seq<Sample>>) returns (times: set<int>)
    ensures times == AllTimes(series)
  {
    times := {};
    var rest := series.Keys;
    ghost var done: set<string> := {};
    while rest != {}
      invariant rest + done == series.Keys && rest !! done
      invariant times == TimesIn(series, done)
      decreases rest
    {
      var k :| k in rest;
      var vals := series[k];
      var j := 0;
      while j < |vals|
        invariant 0 <= j <= |vals|
        invariant times == TimesIn(series, done) + TimesOf(vals[..j])
      {
        TimesOfSnoc(vals, j);
        times := times + {vals[j].t};
        j := j + 1;
      }
      assert vals[..j] == vals;
      TimesInAdd(series, done, k);
      done := done + {k};
      rest := rest - {k};
    }
  }

  /** `m` is the least element of `s`. */
  predicate IsLeast(m: int, s: set<int>) {
    m in s && forall y :: y in s ==> m <= y
  }

  /** A non-empty finite set of integers has a least element. */
  lemma {:induction false} MinExists(s: set<int>)
    requires s != {}
    ensures exists m :: IsLeast(m, s)
    decreases |s|
  {
    if forall y :: y !in s {
      assert false;
    }
    var e :| e in s;
    if s == {e} {
      assert IsLeast(e, s);
    } else {
      MinExists(s - {e});
      var m :| IsLeast(m, s - {e});
      var least := if e < m then e else m;
      forall y | y in s ensures least <= y {
        if y != e { assert y in s - {e}; }
      }
      assert IsLeast(least, s);
    }
  }

  /**
   * `Array.from(times).sort((a, b) => a - b)`: the times in ascending order.
   * Since they come from a set, each appears once and the order is strict.
   */
  method SortAscending(times: set<int>) returns (xs: seq<int>)
    ensures StrictlyIncreasing(xs)
    ensures forall i :: 0 <= i < |xs| ==> xs[i] in times
    ensures forall t :: t in times ==> t in xs
    ensures |xs| == |times|
  {
    xs := [];
    var rest := times;
    while rest != {}
      invariant rest <= times
      invariant StrictlyIncreasing(xs)
      invariant forall i :: 0 <= i < |xs| ==> xs[i] in times && xs[i] !in rest
      invariant forall t :: t in times ==> t in rest || t in xs
      invariant forall i, t :: 0 <= i < |xs| && t in rest ==> xs[i] < t
      invariant |xs| + |rest| == |times|
      decreases rest
    {
      MinExists(rest);
      var m :| IsLeast(m, rest);
      xs := xs + [m];
      rest := rest - {m};
    }
  }

  // ---------------------------------------------------------------------
  // The power scale

  /** `(series[k] && series[k].values) || []`. */
  function ValuesOf(series: map<string, seq<Sample>>, k: string): seq<Sample> {
    if k in series then series[k] else []
  }

  /** The largest absolute value of a series, 0 for an empty one. */
  function PeakAbs(vals: seq<Sample>): (r: real)
    ensures r >= 0.0
    ensures vals != [] ==> r >= PeakAbs(vals[..|vals| - 1]) && r >= Abs(vals[|vals| - 1].v)
  {
    if vals == [] then 0.0 else RMax(PeakAbs(vals[..|vals| - 1]), Abs(vals[|vals| - 1].v))
  }

  /** The largest absolute value over the series named in `keys`, 0 if there is none. */
  function Peak(series: map<string, seq<Sample>>, keys: seq<string>): (r: real)
    ensures r >= 0.0
    ensures keys != [] ==> r >= PeakAbs(ValuesOf(series, keys[|keys| - 1]))
  {
    if keys == [] then 0.0 else RMax(Peak(series, keys[..|keys| - 1]), PeakAbs(ValuesOf(series, keys[|keys| - 1])))
  }

  /** The peak bounds every sample and, unless it is 0, is reached by one. */
  lemma {:induction false} PeakAbsIsMax(vals: seq<Sample>)
    ensures forall i :: 0 <= i < |vals| ==> Abs(vals[i].v) <= PeakAbs(vals)
    ensures PeakAbs(vals) == 0.0 || exists i :: 0 <= i < |vals| && Abs(vals[i].v) == PeakAbs(vals)
  {
    if vals != [] {
      var n := |vals| - 1;
      PeakAbsIsMax(vals[..n]);
      forall i | 0 <= i < |vals| ensures Abs(vals[i].v) <= PeakAbs(vals) {
        if i < n { assert vals[..n][i] == vals[i]; }
      }
      if PeakAbs(vals) != Abs(vals[n].v) && PeakAbs(vals) != 0.0 {
        var i :| 0 <= i < n && Abs(vals[..n][i].v) == PeakAbs(vals[..n]);
        assert vals[..n][i] == vals[i];
      }
    }
  }

  lemma {:induction false} PeakIsMax(series: map<string, seq<Sample>>, keys: seq<string>)
    ensures forall k, i :: k in keys && k in series && 0 <= i < |series[k]| ==> Abs(series[k][i].v) <= Peak(series, keys)
    ensures Peak(series, keys) == 0.0 || exists k, i :: k in keys && k in series && 0 <= i < |series[k]| && Abs(series[k][i].v) == Peak(series, keys)
  {
    if keys != [] {
      var n := |keys| - 1;
      PeakIsMax(series, keys[..n]);
      PeakAbsIsMax(ValuesOf(series, keys[n]));
      forall k, i | k in keys && k in series && 0 <= i < |series[k]|
        ensures Abs(series[k][i].v) <= Peak(series, keys)
      {
        if k != keys[n] {
          var p :| 0 <= p < |keys| && keys[p] == k;
          assert keys[..n][p] == k;
        }
      }
      if Peak(series, keys) != 0.0 {
        if Peak(series, keys) == PeakAbs(ValuesOf(series, keys[n])) {
          var i :| 0 <= i < |ValuesOf(series, keys[n])| && Abs(ValuesOf(series, keys[n])[i].v) == Peak(series, keys);
          assert keys[n] in keys;
        } else {
          var k, i :| k in keys[..n] && k in series && 0 <= i < |series[k]| && Abs(series[k][i].v) == Peak(series, keys[..n]);
          assert k in keys;
        }
      }
    }
  }

  /** `maxW` of `draw`: the largest absolute power sample, or 1 when that is not positive. */
  method MaxPower(series: map<string, seq<Sample>>) returns (maxW: real)
    ensures maxW > 0.0
    ensures maxW == (if Peak(series, PowerKeys) <= 0.0 then 1.0 else Peak(series, PowerKeys))
    ensures forall k, i :: k in PowerKeys && k in series && 0 <= i < |series[k]| ==> Abs(series[k][i].v) <= maxW
  {
    maxW := ScanPeak(series, PowerKeys);
    PeakIsMax(series, PowerKeys);
    if maxW <= 0.0 {
      maxW := 1.0;
    }
  }

  /** The running maximum of `draw` over the samples of the series named in `keys`. */
  method ScanPeak(series: map<string, seq<Sample>>, keys: seq<string>) returns (m: real)
    ensures m == Peak(series, keys)
  {
    m := 0.0;
    var i := 0;
    while i < |keys|
      invariant 0 <= i <= |keys|
      invariant m == Peak(series, keys[..i])
    {
      m := ScanSeries(ValuesOf(series, keys[i]), m);
      assert keys[..i + 1][..i] == keys[..i];
      i := i + 1;
    }
    assert keys[..i] == keys;
  }

  /** One series' share of the running maximum: `m0` raised to the series' largest absolute value. */
  method ScanSeries(vals: seq<Sample>, m0: real) returns (m: real)
    requires m0 >= 0.0
    ensures m == RMax(m0, PeakAbs(vals))
  {
    m := m0;
    var j := 0;
    while j < |vals|
      invariant 0 <= j <= |vals|
      invariant m == RMax(m0, PeakAbs(vals[..j]))
    {
      assert vals[..j + 1][..j] == vals[..j];
      if Abs(vals[j].v) > m {
        m := Abs(vals[j].v);
      }
      j := j + 1;
    }
    assert vals[..j] == vals;
  }

  // ---------------------------------------------------------------------
  // draw's set-up

  /**
   * What `draw` computes before plotting: nothing without data or with fewer
   * than two distinct sample times; otherwise the ascending time axis and a
   * positive power scale maximum.
   */
  method PlanDraw(data: Option<HistoryData>) returns (plan: Option<Scales>)
    ensures data.None? ==> plan.None?
    ensures data.Some? ==> (plan.None? <==> |AllTimes(data.value.series)| < 2)
    ensures plan.Some? ==>
      && StrictlyIncreasing(plan.value.xs)
      && (forall t :: t in AllTimes(data.value.series) <==> t in plan.value.xs)
      && plan.value.maxW > 0.0
      && (forall k, i :: k in PowerKeys && k in data.value.series && 0 <= i < |data.value.series[k]| ==>
            Abs(data.value.series[k][i].v) <= plan.value.maxW)
  {
    if data.None? {
      return None;
    }
    var times := CollectTimes(data.value.series);
    var xs := SortAscending(times);
    if |xs| < 2 {
      return None;
    }
    var maxW := MaxPower(data.value.series);
    plan := Some(Scales(xs, maxW));
  }

  // ---------------------------------------------------------------------
  // Coordinate mappings

  /** The canvas row of a share `f` of the plot height, measured up from the baseline `H - B`. */
  function Row(H: nat, f: real): real {
    H as real - B - f * (H as real - B - T)
  }

  lemma RowFacts(H: nat, f: real)
    ensures f == 0.0 ==> Row(H, f) == H as real - B
    ensures f == 1.0 ==> Row(H, f) == T
    ensures 0.0 <= f <= 1.0 && H as real >= B + T ==> T <= Row(H, f) <= H as real - B
  {
    if 0.0 <= f <= 1.0 && H as real >= B + T {
      RowBetween(H, f);
    }
  }

  lemma RowBetween(H: nat, f: real)
    requires 0.0 <= f <= 1.0 && H as real >= B + T
    ensures T <= Row(H, f) <= H as real - B
  {
    ScaledBetween(f, H as real - B - T);
  }

  /** A larger share sits higher (a smaller row) on the canvas. */
  lemma RowMonotone(H: nat, f1: real, f2: real)
    requires H as real >= B + T && f1 <= f2
    ensures Row(H, f2) <= Row(H, f1)
  {
    ScaledMonotone(f1, f2, H as real - B - T);
  }

  /** `Math.max(0, v) / top`: negatives give 0, `top` gives 1, values in between a share in [0, 1]. */
  lemma ShareFacts(v: real, top: real)
    requires top > 0.0
    ensures v <= 0.0 ==> RMax(0.0, v) / top == 0.0
    ensures v == top ==> RMax(0.0, v) / top == 1.0
    ensures 0.0 <= v <= top ==> 0.0 <= RMax(0.0, v) / top <= 1.0
  {
    if 0.0 <= v <= top {
      ShareBetween(v, v, top);
    }
  }

  /** `yPow`: a power value to a canvas row; negatives sit on the baseline `H - B`, `maxW` on the top line `T`. */
  function YPow(H: nat, maxW: real, v: real): (y: real)
    requires maxW > 0.0
    ensures v <= 0.0 ==> y == H as real - B
    ensures v == maxW ==> y == T
    ensures 0.0 <= v <= maxW && H as real >= B + T ==> T <= y <= H as real - B
  {
    ShareFacts(v, maxW);
    RowFacts(H, RMax(0.0, v) / maxW);
    Row(H, RMax(0.0, v) / maxW)
  }

  /** `ySoc`: a state of charge to a canvas row; negatives sit on the baseline, 100 % on the top line. */
  function YSoc(H: nat, v: real): (y: real)
    ensures v <= 0.0 ==> y == H as real - B
    ensures v == 100.0 ==> y == T
    ensures 0.0 <= v <= 100.0 && H as real >= B + T ==> T <= y <= H as real - B
  {
    ShareFacts(v, 100.0);
    RowFacts(H, RMax(0.0, v) / 100.0);
    Row(H, RMax(0.0, v) / 100.0)
  }

  lemma ScaledBetween(f: real, d: real)
    ensures 0.0 <= f <= 1.0 && d >= 0.0 ==> 0.0 <= f * d <= d
  {
    if 0.0 <= f <= 1.0 && d >= 0.0 {
      assert f * d <= 1.0 * d;
    }
  }

  lemma ShareBetween(a1: real, a2: real, d: real)
    requires d > 0.0 && 0.0 <= a1 <= a2 <= d
    ensures 0.0 <= a1 / d <= a2 / d <= 1.0
  {
    assert (a1 / d) * d == a1;
    assert (a2 / d) * d == a2;
  }

  /** A larger power never plots lower on the canvas. */
  lemma YPowMonotone(H: nat, maxW: real, v1: real, v2: real)
    requires maxW > 0.0 && H as real >= B + T
    requires v1 <= v2
    ensures YPow(H, maxW, v2) <= YPow(H, maxW, v1)
  {
    DivMonotone(RMax(0.0, v1), RMax(0.0, v2), maxW);
    RowMonotone(H, RMax(0.0, v1) / maxW, RMax(0.0, v2) / maxW);
  }

  lemma DivMonotone(a1: real, a2: real, d: real)
    requires d > 0.0 && a1 <= a2
    ensures a1 / d <= a2 / d
  {
    assert (a1 / d) * d == a1;
    assert (a2 / d) * d == a2;
  }

  /**
   * The row `line` plots for one sample of series `k`: the state of charge
   * on the percent scale, every other series as `yPow` of its absolute value
   * divided by 1000, against the `maxW` that `draw` took from the raw values.
   */
  function LineRow(H: nat, maxW: real, k: string, v: real): (y: real)
    requires maxW > 0.0
    ensures k == "soc" && 0.0 <= v <= 100.0 && H as real >= B + T ==> T <= y <= H as real - B
    ensures k != "soc" && v == 0.0 ==> y == H as real - B
  {
    if k == "soc" then YSoc(H, v) else YPow(H, maxW, Abs(v) / 1000.0)
  }

  /** As written, every power sample plots within a thousandth of the plot height above the baseline. */
  lemma LineRowSquashed(H: nat, maxW: real, k: string, v: real)
    requires maxW > 0.0 && k != "soc" && Abs(v) <= maxW && H as real >= B + T
    ensures H as real - B - (H as real - B - T) / 1000.0 <= LineRow(H, maxW, k, v) <= H as real - B
  {
    var a := Abs(v) / 1000.0;
    var f := a / maxW;
    DivMonotone(Abs(v), maxW, 1000.0);
    DivMonotone(a, maxW / 1000.0, maxW);
    assert (maxW / 1000.0) / maxW == 1.0 / 1000.0;
    ShareFacts(a, maxW);
    assert LineRow(H, maxW, k, v) == Row(H, f);
    RowBetween(H, f);
    RowMonotone(H, f, 1.0 / 1000.0);
  }

  /** A 300-pixel canvas and a 5000 W peak: the peak sample plots at row 273.736, not on the top line at row 10. */
  lemma PeakSampleMissesTop()
    ensures LineRow(300, 5000.0, "pv", 5000.0) == 273.736
    ensures LineRow(300, 5000.0, "pv", 5000.0) != T
  {
  }

  /**
   * The row `line` evidently means to plot: the sample and the scale maximum
   * both in kW, so the peak sample reaches the top line.
   */
  function LineRowKw(H: nat, maxW: real, k: string, v: real): (y: real)
    requires maxW > 0.0
    ensures k == "soc" && 0.0 <= v <= 100.0 && H as real >= B + T ==> T <= y <= H as real - B
    ensures k != "soc" && v == 0.0 ==> y == H as real - B
  {
    if k == "soc" then YSoc(H, v) else YPow(H, maxW / 1000.0, Abs(v) / 1000.0)
  }

  /** With matching units, power samples span the whole plot height and the peak sample sits on the top line. */
  lemma LineRowKwSpansPlot(H: nat, maxW: real, k: string, v: real)
    requires maxW > 0.0 && k != "soc" && Abs(v) <= maxW && H as real >= B + T
    ensures T <= LineRowKw(H, maxW, k, v) <= H as real - B
    ensures Abs(v) == maxW ==> LineRowKw(H, maxW, k, v) == T
    ensures v == 0.0 ==> LineRowKw(H, maxW, k, v) == H as real - B
  {
    DivMonotone(Abs(v), maxW, 1000.0);
  }

  /** With matching units, a larger absolute power never plots lower. */
  lemma LineRowKwMonotone(H: nat, maxW: real, k: string, v1: real, v2: real)
    requires maxW > 0.0 && k != "soc" && H as real >= B + T && Abs(v1) <= Abs(v2)
    ensures LineRowKw(H, maxW, k, v2) <= LineRowKw(H, maxW, k, v1)
  {
    DivMonotone(Abs(v1), Abs(v2), 1000.0);
    YPowMonotone(H, maxW / 1000.0, Abs(v1) / 1000.0, Abs(v2) / 1000.0);
  }

  /** The column of time `t` over a proper range: the left margin plus its share of the plot width. */
  function XPos(W: nat, start: int, end: int, t: int): real
    requires end > start
  {
    L + ((t - start) as real / (end - start) as real) * (W as real - L - R)
  }

  /** `x`: a time to a canvas column, as a JavaScript number (a zero-length range divides by zero). */
  function X(W: nat, start: int, end: int, t: int): (r: JsNumber)
    ensures end > start ==> r == Fin(XPos(W, start, end, t))
    ensures end > start && t == start ==> r == Fin(L)
    ensures end > start && t == end ==> r == Fin(W as real - R)
    ensures end == start && t == start ==> r.NaN?
    ensures end == start && t > start && W as real > L + R ==> r == PosInf
    ensures end == start && t < start && W as real > L + R ==> r == NegInf
  {
    var frac := Div(Fin((t - start) as real), Fin((end - start) as real));
    var w := W as real - L - R;
    if end > start then
      XFinite(W, start, end, t);
      Add(Fin(L), Mul(frac, Fin(w)))
    else
      Add(Fin(L), Mul(frac, Fin(w)))
  }

  lemma XFinite(W: nat, start: int, end: int, t: int)
    requires end > start
    ensures Add(Fin(L), Mul(Div(Fin((t - start) as real), Fin((end - start) as real)), Fin(W as real - L - R)))
         == Fin(XPos(W, start, end, t))
    ensures t == start ==> XPos(W, start, end, t) == L
    ensures t == end ==> XPos(W, start, end, t) == W as real - R
  {
    var d := (end - start) as real;
    var f := (t - start) as real / d;
    var w := W as real - L - R;
    assert Div(Fin((t - start) as real), Fin(d)) == Fin(f);
    assert Mul(Fin(f), Fin(w)) == Fin(f * w);
    assert XPos(W, start, end, t) == L + f * w;
    if t == end {
      assert f == 1.0;
    }
  }

  /** Over a proper range and a canvas wide enough for the margins, later times plot further right, inside the margins. */
  lemma XMonotone(W: nat, start: int, end: int, t1: int, t2: int)
    requires end > start && W as real >= L + R
    requires start <= t1 <= t2 <= end
    ensures XPos(W, start, end, t1) <= XPos(W, start, end, t2)
    ensures L <= XPos(W, start, end, t1) && XPos(W, start, end, t2) <= W as real - R
  {
    var d := (end - start) as real;
    var f1 := (t1 - start) as real / d;
    var f2 := (t2 - start) as real / d;
    ShareBetween((t1 - start) as real, (t2 - start) as real, d);
    var w := W as real - L - R;
    ScaledBetween(f1, w);
    ScaledBetween(f2, w);
    ScaledMonotone(f1, f2, w);
  }

  lemma ScaledMonotone(f1: real, f2: real, w: real)
    requires f1 <= f2 && w >= 0.0
    ensures f1 * w <= f2 * w
  {
    assert (f2 - f1) * w >= 0.0;
    assert f2 * w - f1 * w == (f2 - f1) * w;
  }

  // ---------------------------------------------------------------------
  // Energy cards

  /** The sum of the absolute values of a series. */
  function SumAbs(vals: seq<Sample>): (r: real)
    ensures r >= 0.0
  {
    if vals == [] then 0.0 else SumAbs(vals[..|vals| - 1]) + Abs(vals[|vals| - 1].v)
  }

  /**
   * `sumEnergyKWh(vals, stepSec)`: 0 without samples; otherwise the absolute
   * powers times the step, converted from watt-seconds to kilowatt-hours.
   * Never negative for a non-negative step.
   */
  method SumEnergyKWh(vals: Option<seq<Sample>>, stepSec: real) returns (r: real)
    ensures vals.None? || vals.value == [] ==> r == 0.0
    ensures vals.Some? ==> r == SumAbs(vals.value) * stepSec / 3600000.0
    ensures stepSec >= 0.0 ==> r >= 0.0
  {
    if vals.None? || |vals.value| == 0 {
      return 0.0;
    }
    var vs := vals.value;
    var s := 0.0;
    var i := 0;
    while i < |vs|
      invariant 0 <= i <= |vs|
      invariant s == ScaledSum(vs[..i], stepSec)
    {
      assert vs[..i + 1][..i] == vs[..i];
      s := s + Abs(vs[i].v) * stepSec;
      i := i + 1;
    }
    assert vs[..i] == vs;
    ScaledSumIsProduct(vs, stepSec);
    r := s / 3600000.0;
    if stepSec >= 0.0 {
      NonNegativeEnergy(SumAbs(vs), stepSec);
    }
  }

  /** The loop's running total: every absolute value times the step, added one by one. */
  function ScaledSum(vs: seq<Sample>, step: real): real {
    if vs == [] then 0.0 else ScaledSum(vs[..|vs| - 1], step) + Abs(vs[|vs| - 1].v) * step
  }

  /** Adding the scaled values one by one equals scaling their sum once. */
  lemma {:induction false} ScaledSumIsProduct(vs: seq<Sample>, step: real)
    ensures ScaledSum(vs, step) == SumAbs(vs) * step
  {
    if vs != [] {
      var n := |vs| - 1;
      ScaledSumIsProduct(vs[..n], step);
      assert (SumAbs(vs[..n]) + Abs(vs[n].v)) * step == SumAbs(vs[..n]) * step + Abs(vs[n].v) * step;
    }
  }

  lemma NonNegativeEnergy(sum: real, step: real)
    requires sum >= 0.0 && step >= 0.0
    ensures sum * step / 3600000.0 >= 0.0
  {
    assert sum * step >= 0.0;
  }
}
