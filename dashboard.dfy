/**
 * The live dashboard's client logic (www/app.js): the state map that the
 * event stream replaces or merges into, the percentage and arc-degree clamps
 * of the gauges, the hour and power formatters, the ordered fallback `pick`
 * and the derived autarky and self-consumption percentages.
 */
module Dashboard {
  import opened Wrappers
  import opened JsValues
  import Decimal

  /** One cached data point as the server sends it; anything that is not an object reads as `NonRecord`. */
  datatype Entry = Record(value: JsValue, ts: JsValue) | NonRecord

  /** A message of the event stream, after `JSON.parse`; `Unparsable` when parsing throws. */
  datatype Message = Unparsable | Message(kind: JsValue, payload: Option<map<string, Entry>>)

  /** `state[k]?.value`. */
  function Get(state: map<string, Entry>, k: string): (v: JsValue)
    ensures k !in state ==> v == Undefined
  {
    if k in state && state[k].Record? then state[k].value else Undefined
  }

  /**
   * The effect of one stream message on the client state: an `init` with a
   * payload replaces the whole state, an `update` with a payload overwrites
   * exactly the keys it carries (`Object.assign`), and anything else leaves
   * the state as it was.
   */
  function ApplyMessage(state: map<string, Entry>, m: Message): (r: map<string, Entry>)
    ensures m.Message? && m.kind == Str("init") && m.payload.Some? ==> r == m.payload.value
    ensures m.Message? && m.kind == Str("update") && m.payload.Some? ==>
      && r.Keys == state.Keys + m.payload.value.Keys
      && (forall k :: k in m.payload.value ==> r[k] == m.payload.value[k])
      && (forall k :: k in state && k !in m.payload.value ==> r[k] == state[k])
    ensures m.Unparsable? || m.payload.None? || (m.kind != Str("init") && m.kind != Str("update")) ==> r == state
  {
    match m
    case Unparsable => state
    case Message(kind, payload) =>
      if kind == Str("init") && payload.Some? then payload.value
      else if kind == Str("update") && payload.Some? then state + payload.value
      else state
  }

  /** Applying the same update twice is the same as applying it once. */
  lemma UpdateIdempotent(state: map<string, Entry>, payload: map<string, Entry>)
    ensures ApplyMessage(ApplyMessage(state, Message(Str("update"), Some(payload))), Message(Str("update"), Some(payload)))
         == ApplyMessage(state, Message(Str("update"), Some(payload)))
  {
  }

  /** Updates that carry disjoint keys can arrive in either order. */
  lemma UpdatesCommute(state: map<string, Entry>, p: map<string, Entry>, q: map<string, Entry>)
    requires p.Keys !! q.Keys
    ensures ApplyMessage(ApplyMessage(state, Message(Str("update"), Some(p))), Message(Str("update"), Some(q)))
         == ApplyMessage(ApplyMessage(state, Message(Str("update"), Some(q))), Message(Str("update"), Some(p)))
  {
    var pq := ApplyMessage(ApplyMessage(state, Message(Str("update"), Some(p))), Message(Str("update"), Some(q)));
    var qp := ApplyMessage(ApplyMessage(state, Message(Str("update"), Some(q))), Message(Str("update"), Some(p)));
    assert pq.Keys == qp.Keys;
    forall k | k in pq ensures pq[k] == qp[k] {
      if k in q {
        assert k !in p;
      }
    }
  }

  /** An `init` forgets everything that came before it. */
  lemma InitForgetsHistory(s1: map<string, Entry>, s2: map<string, Entry>, payload: map<string, Entry>)
    ensures ApplyMessage(s1, Message(Str("init"), Some(payload))) == ApplyMessage(s2, Message(Str("init"), Some(payload)))
  {
  }

  /** The client's module-level `state` and the stream handler that changes it. */
  class LiveView {
    var state: map<string, Entry>

    /** `let state = {}`. */
    constructor ()
      ensures state == map[]
    {
      state := map[];
    }

    /** `es.onmessage`: replace on `init`, merge on `update`, ignore anything else. */
    method OnMessage(m: Message)
      modifies this
      ensures state == ApplyMessage(old(state), m)
      ensures forall k :: k in old(state) && !(m.Message? && m.payload.Some? && (m.kind == Str("init") || k in m.payload.value)) ==>
        k in state && state[k] == old(state)[k]
    {
      if m.Message? && m.kind == Str("init") && m.payload.Some? {
        state := m.payload.value;
      } else if m.Message? && m.kind == Str("update") && m.payload.Some? {
        state := state + m.payload.value;
      }
    }
  }

  // ---------------------------------------------------------------------
  // Gauge clamps

  /**
   * `Math.max(0, Math.min(100, pct || 0))`, the percentage clamp of the bars,
   * rings and donut segments. A falsy input gives 0 and an in-range number
   * passes unchanged; the only way to get NaN out is a truthy input that does
   * not convert to a number (a non-numeric string).
   */
  function ClampPercent(pct: JsValue): (r: JsNumber)
    ensures r.NaN? <==> Truthy(pct) && IsNaN(pct)
    ensures !r.NaN? ==> r.Fin? && 0.0 <= r.x <= 100.0
    ensures !Truthy(pct) ==> r == Fin(0.0)
    ensures pct.Num? && pct.n.Fin? && 0.0 <= pct.n.x <= 100.0 ==> r == pct.n
  {
    Clamp(0.0, 100.0, ToNumber(Or(pct, Num(Fin(0.0)))))
  }

  /** `Math.max(0, Math.min(359.9, arcDeg))`, the arc length clamp of the donut. */
  function ClampDegrees(arcDeg: JsNumber): (r: JsNumber)
    ensures r.NaN? <==> arcDeg.NaN?
    ensures !r.NaN? ==> r.Fin? && 0.0 <= r.x <= 359.9
    ensures arcDeg.Fin? && 0.0 <= arcDeg.x <= 359.9 ==> r == arcDeg
  {
    Clamp(0.0, 359.9, arcDeg)
  }

  // ---------------------------------------------------------------------
  // Formatters

  /** `Math.round(x)`: the nearest integer, halves rounded up. */
  function Round(x: real): int {
    (x + 0.5).Floor
  }

  datatype Duration = Duration(hours: nat, minutes: nat)

  /** Whether `formatHours` prints `--`: `!h || !isFinite(h) || h <= 0`. */
  predicate NoHours(h: JsNumber) {
    !NumberTruthy(h) || !IsFinite(Num(h)) || h.x <= 0.0
  }

  /** The hours/minutes split of `formatHours`, or `None` where it prints `--`. */
  function HoursMinutes(h: JsNumber): (r: Option<Duration>)
    ensures r.None? <==> NoHours(h)
    ensures r.Some? ==> r.value.hours * 60 + r.value.minutes == Round(h.x * 60.0) && r.value.minutes < 60
  {
    if NoHours(h) then None
    else
      var totalMin := Round(h.x * 60.0);
      Some(Duration(totalMin / 60, totalMin % 60))
  }

  /** `formatHours(h)`: `--`, or the whole hours, `h `, the minutes padded to two digits, and `m`. */
  function FormatHours(h: JsNumber): (r: string)
    ensures NoHours(h) ==> r == "--"
    ensures !NoHours(h) ==> |r| >= 5 && r[|r| - 1] == 'm'
  {
    match HoursMinutes(h)
    case None => "--"
    case Some(d) => Decimal.NatToDecimal(d.hours) + "h " + (if d.minutes < 10 then "0" else "") + Decimal.NatToDecimal(d.minutes) + "m"
  }

  /**
   * What `formatHours` prints: `--` exactly when the input is zero, NaN,
   * infinite or negative, and otherwise a digit string, `h `, exactly two
   * digits below 60 and `m`, which read back give the rounded total minutes.
   */
  lemma {:induction false} FormatHoursReadsBack(h: JsNumber)
    ensures FormatHours(h) == "--" <==> NoHours(h)
    ensures !NoHours(h) ==> exists hs: string, ms: string ::
      && FormatHours(h) == hs + "h " + ms + "m"
      && |hs| >= 1 && Decimal.AllDigits(hs)
      && |ms| == 2 && Decimal.AllDigits(ms)
      && Decimal.DigitsValue(ms) < 60
      && Decimal.DigitsValue(hs) * 60 + Decimal.DigitsValue(ms) == Round(h.x * 60.0)
  {
    match HoursMinutes(h)
    case None =>
    case Some(d) =>
      var hs := Decimal.NatToDecimal(d.hours);
      var ms := (if d.minutes < 10 then "0" else "") + Decimal.NatToDecimal(d.minutes);
      assert FormatHours(h) == hs + "h " + ms + "m";
      assert FormatHours(h) != "--" by {
        assert FormatHours(h)[|hs|] == 'h';
        assert |FormatHours(h)| > 2;
      }
      Decimal.DecimalRoundTrip(d.hours);
      Decimal.DecimalRoundTrip(d.minutes);
      Decimal.DecimalLength(d.minutes);
      if d.minutes < 10 {
        assert ms == ['0', Decimal.DigitChar(d.minutes)];
        assert ms[..1] == "0";
        assert Decimal.DigitsValue(ms) == d.minutes;
      } else {
        assert |Decimal.NatToDecimal(d.minutes / 10)| == 1 by {
          Decimal.DecimalLength(d.minutes / 10);
        }
      }
  }

  /** What `formatPower` shows: `--`, or an amount with a number of decimals and a unit suffix. */
  datatype PowerText = Dashes | Fixed(amount: JsNumber, decimals: nat, suffix: string)

  /**
   * `formatPower(v)` under the configured `units.power`. `--` exactly for
   * `undefined`, `null` and values that convert to NaN; otherwise ` kW` with
   * two decimals of the value divided by 1000 when the unit is `kW`, and ` W`
   * with no decimals in every other case.
   */
  function FormatPower(v: JsValue, unitsPower: JsValue): (r: PowerText)
    ensures r.Dashes? <==> v.Undefined? || v.Null? || IsNaN(v)
    ensures r.Fixed? ==> (r.suffix == " kW" <==> unitsPower == Str("kW"))
    ensures r.Fixed? ==> (r.suffix == " W" <==> unitsPower != Str("kW"))
    ensures r.Fixed? ==> r.decimals == (if unitsPower == Str("kW") then 2 else 0)
    ensures r.Fixed? ==> !r.amount.NaN? && (r.amount.Fin? <==> ToNumber(v).Fin?)
    ensures r.Fixed? && ToNumber(v).Fin? ==>
      r.amount.x == (if unitsPower == Str("kW") then ToNumber(v).x / 1000.0 else ToNumber(v).x)
  {
    if v.Undefined? || v.Null? || IsNaN(v) then Dashes
    else
      var n := ToNumber(v);
      if unitsPower == Str("kW") then Fixed(Div(n, Fin(1000.0)), 2, " kW")
      else Fixed(n, 0, " W")
  }

  // ---------------------------------------------------------------------
  // pick and computeDerived

  /** `v != null && !isNaN(v)`: a value `pick` accepts. */
  predicate Usable(v: JsValue) {
    !LooselyNull(v) && !IsNaN(v)
  }

  /** `pick(...keys)`: the number of the first key whose value is usable, else `null`. */
  function PickOf(state: map<string, Entry>, keys: seq<string>): (r: Option<JsNumber>)
    ensures keys == [] ==> r.None?
    ensures r.Some? ==> exists k :: k in keys && Usable(Get(state, k)) && r.value == ToNumber(Get(state, k))
    decreases |keys|
  {
    if keys == [] then None
    else if Usable(Get(state, keys[0])) then Some(ToNumber(Get(state, keys[0])))
    else PickOf(state, keys[1..])
  }

  /** `pick` answers with the first usable key, and with `null` only when no key is usable. */
  lemma {:induction false} PickOfFirstUsable(state: map<string, Entry>, keys: seq<string>)
    ensures PickOf(state, keys).None? <==> forall i :: 0 <= i < |keys| ==> !Usable(Get(state, keys[i]))
    ensures PickOf(state, keys).Some? ==>
      (exists i :: 0 <= i < |keys| && Usable(Get(state, keys[i]))
        && PickOf(state, keys).value == ToNumber(Get(state, keys[i]))
        && (forall j :: 0 <= j < i ==> !Usable(Get(state, keys[j]))))
    ensures PickOf(state, keys).Some? ==> !PickOf(state, keys).value.NaN?
    decreases |keys|
  {
    if keys != [] && !Usable(Get(state, keys[0])) {
      PickOfFirstUsable(state, keys[1..]);
      if PickOf(state, keys).Some? {
        var i :| 0 <= i < |keys[1..]| && Usable(Get(state, keys[1..][i]))
          && PickOf(state, keys[1..]).value == ToNumber(Get(state, keys[1..][i]))
          && (forall j :: 0 <= j < i ==> !Usable(Get(state, keys[1..][j])));
        assert Usable(Get(state, keys[i + 1]));
        forall j | 0 <= j < i + 1 ensures !Usable(Get(state, keys[j])) {
          if j > 0 { assert keys[j] == keys[1..][j - 1]; }
        }
      } else {
        forall i | 0 <= i < |keys| ensures !Usable(Get(state, keys[i])) {
          if i > 0 { assert keys[i] == keys[1..][i - 1]; }
        }
      }
    }
  }

  /** `pick`, as the loop with early return that the client runs. */
  method Pick(state: map<string, Entry>, keys: seq<string>) returns (r: Option<JsNumber>)
    ensures r == PickOf(state, keys)
  {
    var i := 0;
    while i < |keys|
      invariant 0 <= i <= |keys|
      invariant PickOf(state, keys) == PickOf(state, keys[i..])
    {
      assert keys[i..][1..] == keys[i + 1..];
      var v := Get(state, keys[i]);
      if v != Undefined && v != Null && !IsNaN(v) {
        return Some(ToNumber(v));
      }
      i := i + 1;
    }
    return None;
  }

  /** The keys `computeDerived` picks the PV power from, in order of preference. */
  const PvKeys: seq<string> := ["pvPower", "productionTotal"]

  /** `pvPower` wins over `productionTotal` whenever it holds a usable value. */
  lemma PvPowerFirst(state: map<string, Entry>)
    ensures Usable(Get(state, "pvPower")) ==> PickOf(state, PvKeys) == Some(ToNumber(Get(state, "pvPower")))
    ensures !Usable(Get(state, "pvPower")) ==> PickOf(state, PvKeys) == PickOf(state, ["productionTotal"])
  {
    assert PvKeys[1..] == ["productionTotal"];
  }

  /** The two percentages `computeDerived` may fill in; `None` where it leaves one out. */
  datatype Derived = Derived(autarky: Option<JsNumber>, selfConsumption: Option<JsNumber>)

  /** `x || 0` for a picked number (`null` and falsy numbers give 0). */
  function OrZero(n: Option<JsNumber>): (r: JsNumber)
    ensures !r.NaN?
  {
    if n.Some? && NumberTruthy(n.value) then n.value else Fin(0.0)
  }

  /**
   * The autarky branch of `computeDerived`: PV as a share of the load (at
   * least 1), clamped twice to [0, 100].
   */
  function AutarkyPercent(pv: JsNumber, load: JsNumber): (r: JsNumber)
    ensures pv.Fin? && load.Fin? ==> r.Fin? && 0.0 <= r.x <= 100.0
  {
    var share := Mul(Div(pv, Max(Fin(1.0), load)), Fin(100.0));
    assert pv.Fin? && load.Fin? ==> share.Fin? by {
      if pv.Fin? && load.Fin? {
        var m := Max(Fin(1.0), load);
        assert m.Fin? && m.x >= 1.0;
        DivPositiveNotNaN(pv, m);
        MulPositiveNotNaN(Div(pv, m), Fin(100.0));
      }
    }
    var suppliedByPv := Clamp(0.0, 100.0, share);
    Clamp(0.0, 100.0, suppliedByPv)
  }

  /**
   * The self-consumption branch of `computeDerived`: the part of PV not fed
   * in, as a share of PV, clamped to [0, 100]; 0 when PV is not positive.
   */
  function SelfConsumptionPercent(pv: JsNumber, sell: Option<JsNumber>): (r: JsNumber)
    ensures pv.Fin? ==> r.Fin? && 0.0 <= r.x <= 100.0
    ensures !Less(Fin(0.0), pv) ==> r == Fin(0.0)
  {
    var local := Max(Fin(0.0), Sub(pv, OrZero(sell)));
    var pct := if Less(Fin(0.0), pv) then Mul(Div(local, pv), Fin(100.0)) else Fin(0.0);
    assert pv.Fin? ==> !pct.NaN? by {
      if pv.Fin? && Less(Fin(0.0), pv) {
        SubFiniteNotNaN(pv, OrZero(sell));
        DivPositiveNotNaN(local, pv);
        MulPositiveNotNaN(Div(local, pv), Fin(100.0));
      }
    }
    Clamp(0.0, 100.0, pct)
  }

  /**
   * The arithmetic of `computeDerived` on the picked values. Autarky is
   * filled in only when no autarky value exists and both PV and load are
   * known; self-consumption only when none exists and PV is known. Each
   * filled-in value lies in [0, 100] when its inputs are finite, and
   * self-consumption is 0 when PV is not positive.
   */
  function Derive(pv: Option<JsNumber>, load: Option<JsNumber>, sell: Option<JsNumber>, autarkyIn: JsValue, selfIn: JsValue): (r: Derived)
    ensures r.autarky.Some? <==> LooselyNull(autarkyIn) && pv.Some? && load.Some?
    ensures r.selfConsumption.Some? <==> LooselyNull(selfIn) && pv.Some?
    ensures r.autarky.Some? && pv.value.Fin? && load.value.Fin? ==>
      r.autarky.value.Fin? && 0.0 <= r.autarky.value.x <= 100.0
    ensures r.selfConsumption.Some? && pv.value.Fin? ==>
      r.selfConsumption.value.Fin? && 0.0 <= r.selfConsumption.value.x <= 100.0
    ensures r.selfConsumption.Some? && !Less(Fin(0.0), pv.value) ==> r.selfConsumption.value == Fin(0.0)
  {
    Derived(
      if LooselyNull(autarkyIn) && pv.Some? && load.Some? then Some(AutarkyPercent(pv.value, load.value)) else None,
      if LooselyNull(selfIn) && pv.Some? then Some(SelfConsumptionPercent(pv.value, sell)) else None)
  }

  /** With PV and load both infinite, the derived autarky is NaN, not a percentage. */
  lemma AutarkyOfInfinities()
    ensures Derive(Some(PosInf), Some(PosInf), None, Undefined, Undefined).autarky == Some(NaN)
  {
    assert Div(PosInf, Max(Fin(1.0), PosInf)) == NaN;
  }

  /** `computeDerived()`: pick PV (preferring `pvPower`), load and feed-in, then derive. */
  method ComputeDerived(state: map<string, Entry>) returns (r: Derived)
    ensures r == Derive(PickOf(state, PvKeys), PickOf(state, ["consumptionTotal"]), PickOf(state, ["gridSellPower"]),
                        Get(state, "autarky"), Get(state, "selfConsumption"))
  {
    var pv := Pick(state, PvKeys);
    var load := Pick(state, ["consumptionTotal"]);
    var sell := Pick(state, ["gridSellPower"]);
    r := Derive(pv, load, sell, Get(state, "autarky"), Get(state, "selfConsumption"));
  }
}
