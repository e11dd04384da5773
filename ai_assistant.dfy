/**
 * The rule-based mock assistant: a per-key summary of metric readings,
 * module recommendations and alerts, all driven by fixed thresholds.
 */
module Assistant {
  import opened Wrappers
  import opened Lists
  import opened Text
  import Js

  /** One sensor reading. */
  datatype Metric = Metric(deviceId: string, key: string, value: real, unit: Option<string>, at: string)

  /** A module the assistant may recommend. */
  datatype ModuleMeta = ModuleMeta(
    id: string, name: string, description: string, route: string,
    icon: Option<string>, enabled: bool, tags: Option<seq<string>>)

  datatype InsightType = Irrigation | Livestock | Market | Energy | General

  /** An alert. The source also gives each a random id, which is not modelled. */
  datatype Insight = Insight(kind: InsightType, message: string, action: Option<string>)

  const SmartIrrigationId := "smart-irrigation"
  const LivestockId := "livestock"

  /** Some soil-moisture reading is strictly below 30. */
  predicate HasLowMoisture(metrics: seq<Metric>) {
    exists i :: 0 <= i < |metrics| && metrics[i].key == "soil_moisture" && metrics[i].value < 30.0
  }

  /** Some metric key contains "livestock". */
  predicate HasLivestock(metrics: seq<Metric>) {
    exists i :: 0 <= i < |metrics| && Includes(metrics[i].key, "livestock")
  }

  /** Some solar-production reading is strictly below 50. */
  predicate HasLowSolar(metrics: seq<Metric>) {
    exists i :: 0 <= i < |metrics| && metrics[i].key == "solar_production" && metrics[i].value < 50.0
  }

  /** The low-moisture threshold is strict: 25 triggers it, 30 does not. */
  lemma MoistureThreshold(deviceId: string, at: string)
    ensures HasLowMoisture([Metric(deviceId, "soil_moisture", 25.0, None, at)])
    ensures !HasLowMoisture([Metric(deviceId, "soil_moisture", 30.0, None, at)])
  {
    var dry := [Metric(deviceId, "soil_moisture", 25.0, None, at)];
    assert dry[0].key == "soil_moisture" && dry[0].value < 30.0;
  }

  /** The irrigation module under low soil moisture, the livestock module when some metric key mentions livestock. */
  predicate Recommended(m: ModuleMeta, metrics: seq<Metric>) {
    (m.id == SmartIrrigationId && HasLowMoisture(metrics)) || (m.id == LivestockId && HasLivestock(metrics))
  }

  /**
   * `recommendModules(metrics, available)`: collect the recommended ids, then
   * keep the available modules whose id is among them.
   */
  method RecommendModules(metrics: seq<Metric>, available: seq<ModuleMeta>) returns (r: seq<ModuleMeta>)
    ensures Sublist(r, available)
    ensures forall m :: m in r <==> m in available && Recommended(m, metrics)
    ensures forall m :: multiset(r)[m] == if Recommended(m, metrics) then multiset(available)[m] else 0
  {
    var recs: seq<string> := [];
    if HasLowMoisture(metrics) {
      recs := recs + [SmartIrrigationId];
    }
    if HasLivestock(metrics) {
      recs := recs + [LivestockId];
    }
    r := Filter((m: ModuleMeta) => m.id in recs, available);
    FilterIsSublist((m: ModuleMeta) => m.id in recs, available);
    FilterCounts((m: ModuleMeta) => m.id in recs, available);
  }

  const IrrigationAlert := Insight(Irrigation,
    "Soil moisture below 30% in Section B. Recommend 40 min at 14:30.", Some("Schedule irrigation"))
  const EnergyAlert := Insight(Energy,
    "Solar output is unusually low today. Check inverter and panels.", Some("Open solar module"))

  /** `generateAlerts(metrics)`: an irrigation alert, then an energy alert, each when its threshold is crossed. */
  method GenerateAlerts(metrics: seq<Metric>) returns (alerts: seq<Insight>)
    ensures |alerts| <= 2
    ensures forall a :: a in alerts ==> a == IrrigationAlert || a == EnergyAlert
    ensures IrrigationAlert in alerts <==> HasLowMoisture(metrics)
    ensures EnergyAlert in alerts <==> HasLowSolar(metrics)
    ensures IrrigationAlert in alerts && EnergyAlert in alerts ==> alerts == [IrrigationAlert, EnergyAlert]
    ensures |alerts| == (if HasLowMoisture(metrics) then 1 else 0) + (if HasLowSolar(metrics) then 1 else 0)
  {
    alerts := [];
    if HasLowMoisture(metrics) {
      alerts := alerts + [IrrigationAlert];
    }
    if HasLowSolar(metrics) {
      alerts := alerts + [EnergyAlert];
    }
  }

  /** The key of every metric, in order. */
  function Keys(metrics: seq<Metric>): (r: seq<string>)
    ensures |r| == |metrics| && forall i :: 0 <= i < |metrics| ==> r[i] == metrics[i].key
  {
    Map((m: Metric) => m.key, metrics)
  }

  /** The readings of one key, in the order they were taken. */
  function ValuesFor(metrics: seq<Metric>, key: string): seq<real> {
    if metrics == [] then []
    else
      var last := metrics[|metrics| - 1];
      ValuesFor(metrics[..|metrics| - 1], key) + if last.key == key then [last.value] else []
  }

  function Sum(xs: seq<real>): real {
    if xs == [] then 0.0 else Sum(xs[..|xs| - 1]) + xs[|xs| - 1]
  }

  function Average(xs: seq<real>): real
    requires xs != []
  {
    Sum(xs) / (|xs| as real)
  }

  /** The average of one key's readings. */
  datatype KeyAverage = KeyAverage(key: string, average: real)

  /** "No metrics yet." or one average per key (the text formatting with `toFixed` is not modelled). */
  datatype Summary = NoMetricsYet | Summary(parts: seq<KeyAverage>)

  /** The readings grouped so far hold one non-empty list per key seen. */
  lemma {:induction false} ValuesForNonEmpty(metrics: seq<Metric>, key: string)
    requires key in Keys(metrics)
    ensures ValuesFor(metrics, key) != []
  {
    var n := |metrics| - 1;
    if metrics[n].key != key {
      assert Keys(metrics[..n]) == Keys(metrics)[..n];
      assert key in Keys(metrics)[..n] by {
        var i :| 0 <= i < |metrics| && Keys(metrics)[i] == key;
        assert i < n;
      }
      ValuesForNonEmpty(metrics[..n], key);
    }
  }

  /** A key no metric carries has no readings. */
  lemma {:induction false} ValuesForAbsent(metrics: seq<Metric>, key: string)
    requires key !in Keys(metrics)
    ensures ValuesFor(metrics, key) == []
  {
    if metrics != [] {
      var n := |metrics| - 1;
      assert Keys(metrics[..n]) == Keys(metrics)[..n];
      ValuesForAbsent(metrics[..n], key);
    }
  }

  lemma ValuesForAppend(metrics: seq<Metric>, m: Metric, key: string)
    ensures ValuesFor(metrics + [m], key) == ValuesFor(metrics, key) + (if m.key == key then [m.value] else [])
  {
    assert (metrics + [m])[..|metrics|] == metrics;
  }

  /** One reading added to the grouping keeps the loop's invariant of `GroupByKey`. */
  lemma GroupStep(prev: seq<Metric>, m: Metric, order: seq<string>, byKey: map<string, seq<real>>)
    requires order == Dedupe(Keys(prev))
    requires forall k :: k in byKey <==> k in order
    requires forall k :: k in byKey ==> byKey[k] == ValuesFor(prev, k)
    ensures var o := if m.key in byKey then order else order + [m.key];
      var b := if m.key in byKey then byKey else byKey[m.key := []];
      var b' := b[m.key := b[m.key] + [m.value]];
      && o == Dedupe(Keys(prev + [m]))
      && (forall k :: k in b' <==> k in o)
      && (forall k :: k in b' ==> b'[k] == ValuesFor(prev + [m], k))
  {
    assert Keys(prev + [m]) == Keys(prev) + [m.key];
    DedupeSnoc(Keys(prev), m.key);
    if m.key !in byKey {
      ValuesForAbsent(prev, m.key);
    }
    var b := if m.key in byKey then byKey else byKey[m.key := []];
    var b' := b[m.key := b[m.key] + [m.value]];
    forall k | k in b' ensures b'[k] == ValuesFor(prev + [m], k) {
      ValuesForAppend(prev, m, k);
    }
  }

  /**
   * The `forEach` of `summarizeFarmData`: the `byKey` dictionary of readings
   * per key, and its keys in insertion order (the order of `Object.entries`).
   */
  method GroupByKey(metrics: seq<Metric>) returns (order: seq<string>, byKey: map<string, seq<real>>)
    ensures order == Dedupe(Keys(metrics))
    ensures forall k :: k in byKey <==> k in order
    ensures forall k :: k in byKey ==> byKey[k] == ValuesFor(metrics, k) && byKey[k] != []
  {
    order := [];
    byKey := map[];
    var i := 0;
    while i < |metrics|
      invariant 0 <= i <= |metrics|
      invariant order == Dedupe(Keys(metrics[..i]))
      invariant forall k :: k in byKey <==> k in order
      invariant forall k :: k in byKey ==> byKey[k] == ValuesFor(metrics[..i], k)
    {
      var m := metrics[i];
      GroupStep(metrics[..i], m, order, byKey);
      PrefixSnoc(metrics, i);
      if m.key !in byKey {
        byKey := byKey[m.key := []];
        order := order + [m.key];
      }
      byKey := byKey[m.key := byKey[m.key] + [m.value]];
      i := i + 1;
    }
    assert metrics[..i] == metrics;
    forall k | k in byKey ensures byKey[k] != [] {
      ValuesForNonEmpty(metrics, k);
    }
  }

  /**
   * How the `forEach` of `summarizeFarmData` ends as written. `byKey` is a plain
   * object: for a key naming an `Object.prototype` member, `byKey[k] ||= []` keeps
   * the inherited (truthy) member, and calling `push` on it throws a TypeError.
   */
  datatype GroupingOutcome = AllGrouped | ThrowsTypeError(key: string)

  /** `metrics[i]` is the first reading whose key names an inherited member. */
  ghost predicate FirstInheritedKeyAt(metrics: seq<Metric>, i: int) {
    && 0 <= i < |metrics|
    && metrics[i].key in Js.ObjectPrototypeMembers
    && forall j :: 0 <= j < i ==> metrics[j].key !in Js.ObjectPrototypeMembers
  }

  function GroupingAsWritten(metrics: seq<Metric>): (r: GroupingOutcome)
    ensures r.ThrowsTypeError? <==> exists m :: m in metrics && m.key in Js.ObjectPrototypeMembers
    ensures r.ThrowsTypeError? ==> exists i :: FirstInheritedKeyAt(metrics, i) && metrics[i].key == r.key
  {
    if metrics == [] then AllGrouped
    else if metrics[0].key in Js.ObjectPrototypeMembers then
      assert FirstInheritedKeyAt(metrics, 0);
      ThrowsTypeError(metrics[0].key)
    else
      var r := GroupingAsWritten(metrics[1..]);
      assert forall m :: m in metrics[1..] ==> m in metrics;
      assert r.ThrowsTypeError? ==> exists i :: FirstInheritedKeyAt(metrics, i) && metrics[i].key == r.key by {
        if r.ThrowsTypeError? {
          var i :| FirstInheritedKeyAt(metrics[1..], i) && metrics[1..][i].key == r.key;
          assert FirstInheritedKeyAt(metrics, i + 1);
        }
      }
      r
  }

  /** The counterexample: one reading under the key "constructor" makes the summary throw. */
  lemma ConstructorKeyBreaksSummary(deviceId: string, value: real, at: string)
    ensures GroupingAsWritten([Metric(deviceId, "constructor", value, None, at)]) == ThrowsTypeError("constructor")
    ensures GroupingAsWritten([Metric(deviceId, "soil_moisture", value, None, at)]) == AllGrouped
  {
  }

  /** One average per grouped key, in key order, is the average of that key's readings. */
  lemma AveragesOfGroups(metrics: seq<Metric>, order: seq<string>, byKey: map<string, seq<real>>, parts: seq<KeyAverage>)
    requires order == Dedupe(Keys(metrics))
    requires forall k :: k in byKey ==> byKey[k] == ValuesFor(metrics, k) && byKey[k] != []
    requires |parts| == |order|
    requires forall n :: 0 <= n < |order| ==> order[n] in byKey && parts[n] == KeyAverage(order[n], Average(byKey[order[n]]))
    ensures |parts| > 0 <==> metrics != []
    ensures |parts| == |Dedupe(Keys(metrics))|
    ensures forall n :: 0 <= n < |parts| ==>
      parts[n].key == Dedupe(Keys(metrics))[n] && ValuesFor(metrics, parts[n].key) != []
      && parts[n].average == Average(ValuesFor(metrics, parts[n].key))
  {
    if metrics != [] {
      assert metrics[0].key in Keys(metrics);
    }
    forall n | 0 <= n < |parts|
      ensures ValuesFor(metrics, parts[n].key) != []
    {
      ValuesForNonEmpty(metrics, order[n]);
    }
  }

  /**
   * `summarizeFarmData(metrics)`: average each key's readings, keys in first-appearance
   * order. The grouping uses a dictionary without inherited entries, so every key works.
   */
  method SummarizeFarmData(metrics: seq<Metric>) returns (r: Summary)
    ensures r == NoMetricsYet <==> metrics == []
    ensures r.Summary? ==>
      |r.parts| == |Dedupe(Keys(metrics))|
      && forall j :: 0 <= j < |r.parts| ==>
           r.parts[j].key == Dedupe(Keys(metrics))[j]
           && ValuesFor(metrics, r.parts[j].key) != []
           && r.parts[j].average == Average(ValuesFor(metrics, r.parts[j].key))
  {
    var order, byKey := GroupByKey(metrics);
    var parts: seq<KeyAverage> := [];
    var j := 0;
    while j < |order|
      invariant 0 <= j <= |order|
      invariant |parts| == j
      invariant forall n :: 0 <= n < j ==> order[n] in byKey && parts[n] == KeyAverage(order[n], Average(byKey[order[n]]))
    {
      parts := parts + [KeyAverage(order[j], Average(byKey[order[j]]))];
      j := j + 1;
    }
    AveragesOfGroups(metrics, order, byKey, parts);
    if |parts| > 0 {
      r := Summary(parts);
    } else {
      r := NoMetricsYet;
    }
  }
}
