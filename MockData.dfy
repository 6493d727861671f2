/**
  The front end's mock rule engine (src/lib/mockData.ts): threshold classifiers that map a
  reading to a health status, the weighted health score, and the recommendation and alert
  generators. Readings are inputs here; the random generators that produce them are not modelled.
*/
module MockData {
  import opened Common

  datatype HealthStatus = Good | Moderate | Poor | Hazardous

  /** Severity order of the statuses: a larger rank is a worse status. */
  function Rank(s: HealthStatus): nat {
    match s
    case Good => 0
    case Moderate => 1
    case Poor => 2
    case Hazardous => 3
  }

  datatype Trend = Up | Down | Stable

  datatype SensorReading = SensorReading(value: real, unit: string, status: HealthStatus, trend: Trend)

  datatype SensorData = SensorData(
    temperature: SensorReading,
    humidity: SensorReading,
    co2: SensorReading,
    pm25: SensorReading,
    pm10: SensorReading,
    voc: SensorReading,
    noise: SensorReading,
    light: SensorReading)

  /** A sensor device of the dashboard; `lastSync` is a time in milliseconds. */
  datatype Device = Device(id: string, name: string, location: string, online: bool, lastSync: int, batteryLevel: int)

  // ---------------------------------------------------------------------------
  // Classifiers
  // ---------------------------------------------------------------------------

  /** Upper limits of the good, moderate and poor bands of an "at most" classifier. */
  datatype Thresholds = Thresholds(good: real, moderate: real, poor: real)

  predicate Ordered(t: Thresholds) {
    t.good <= t.moderate <= t.poor
  }

  /** `getStatus`: the first band whose upper limit the value does not exceed. */
  function GetStatus(value: real, t: Thresholds): (s: HealthStatus)
    ensures s == Good <==> value <= t.good
    ensures s == Hazardous <==> value > t.good && value > t.moderate && value > t.poor
    ensures Ordered(t) ==> (s == Hazardous <==> value > t.poor)
    ensures Ordered(t) ==> (s == Moderate <==> t.good < value <= t.moderate)
    ensures Ordered(t) ==> (s == Poor <==> t.moderate < value <= t.poor)
  {
    if value <= t.good then Good
    else if value <= t.moderate then Moderate
    else if value <= t.poor then Poor
    else Hazardous
  }

  /** With ordered thresholds, a larger value never gets a better status. */
  lemma GetStatusMonotone(v: real, w: real, t: Thresholds)
    requires Ordered(t) && v <= w
    ensures Rank(GetStatus(v, t)) <= Rank(GetStatus(w, t))
  {
  }

  /** The threshold tables the mock generator classifies with. */
  const Co2Thresholds := Thresholds(600.0, 1000.0, 1500.0)
  const Pm25Thresholds := Thresholds(12.0, 35.0, 55.0)
  const Pm10Thresholds := Thresholds(20.0, 50.0, 100.0)
  const VocThresholds := Thresholds(100.0, 300.0, 500.0)
  const NoiseThresholds := Thresholds(40.0, 60.0, 80.0)

  /** Three nested closed intervals: good inside moderate inside poor. */
  datatype Bands = Bands(goodLo: real, goodHi: real, moderateLo: real, moderateHi: real, poorLo: real, poorHi: real)

  predicate Nested(b: Bands) {
    b.poorLo <= b.moderateLo <= b.goodLo <= b.goodHi <= b.moderateHi <= b.poorHi
  }

  /** The shape shared by the humidity, temperature and light classifiers. */
  function BandStatus(value: real, b: Bands): (s: HealthStatus)
    requires Nested(b)
    ensures s == Good <==> b.goodLo <= value <= b.goodHi
    ensures s == Hazardous <==> value < b.poorLo || value > b.poorHi
  {
    if b.goodLo <= value <= b.goodHi then Good
    else if b.moderateLo <= value <= b.moderateHi then Moderate
    else if b.poorLo <= value <= b.poorHi then Poor
    else Hazardous
  }

  /** Moving further from the comfort band, on either side, never improves the status. */
  lemma BandStatusMonotone(v: real, w: real, b: Bands)
    requires Nested(b)
    ensures w <= v <= b.goodLo ==> Rank(BandStatus(v, b)) <= Rank(BandStatus(w, b))
    ensures b.goodHi <= v <= w ==> Rank(BandStatus(v, b)) <= Rank(BandStatus(w, b))
  {
  }

  const HumidityBands := Bands(30.0, 50.0, 20.0, 60.0, 10.0, 70.0)
  const TemperatureBands := Bands(20.0, 24.0, 18.0, 26.0, 15.0, 30.0)
  const LightBands := Bands(300.0, 500.0, 200.0, 750.0, 100.0, 1000.0)

  /** `getHumidityStatus` */
  function HumidityStatus(value: real): (s: HealthStatus)
    ensures s == Good <==> 30.0 <= value <= 50.0
    ensures s == Moderate <==> (20.0 <= value < 30.0 || 50.0 < value <= 60.0)
    ensures s == Hazardous <==> value < 10.0 || value > 70.0
  {
    BandStatus(value, HumidityBands)
  }

  /** `getTemperatureStatus` */
  function TemperatureStatus(value: real): (s: HealthStatus)
    ensures s == Good <==> 20.0 <= value <= 24.0
    ensures s == Moderate <==> (18.0 <= value < 20.0 || 24.0 < value <= 26.0)
    ensures s == Hazardous <==> value < 15.0 || value > 30.0
  {
    BandStatus(value, TemperatureBands)
  }

  /** `getLightStatus` */
  function LightStatus(value: real): (s: HealthStatus)
    ensures s == Good <==> 300.0 <= value <= 500.0
    ensures s == Moderate <==> (200.0 <= value < 300.0 || 500.0 < value <= 750.0)
    ensures s == Hazardous <==> value < 100.0 || value > 1000.0
  {
    BandStatus(value, LightBands)
  }

  // ---------------------------------------------------------------------------
  // Weighted health score
  // ---------------------------------------------------------------------------

  datatype Param = Co2 | Pm25 | Pm10 | Voc | Temperature | Humidity | Noise | Light

  function ReadingOf(data: SensorData, p: Param): SensorReading {
    match p
    case Co2 => data.co2
    case Pm25 => data.pm25
    case Pm10 => data.pm10
    case Voc => data.voc
    case Temperature => data.temperature
    case Humidity => data.humidity
    case Noise => data.noise
    case Light => data.light
  }

  /** The score weights in the source's iteration order, as whole percentages (0.2 is 20). */
  const Weights: seq<(Param, nat)> :=
    [(Co2, 20), (Pm25, 20), (Pm10, 10), (Voc, 15), (Temperature, 10), (Humidity, 10), (Noise, 10), (Light, 5)]

  function StatusScore(s: HealthStatus): nat {
    match s
    case Good => 100
    case Moderate => 70
    case Poor => 40
    case Hazardous => 15
  }

  function WeightTotal(ws: seq<(Param, nat)>): nat {
    if ws == [] then 0 else ws[0].1 + WeightTotal(ws[1..])
  }

  /** Sum of status score times weight over `ws`: one hundred times the source's `weightedScore`. */
  function WeightedSum(data: SensorData, ws: seq<(Param, nat)>): nat {
    if ws == [] then 0
    else StatusScore(ReadingOf(data, ws[0].0).status) * ws[0].1 + WeightedSum(data, ws[1..])
  }

  /** The weights add up to one. */
  lemma WeightsSumToOne()
    ensures WeightTotal(Weights) == 100
  {
  }

  /** The weighted sum, written out parameter by parameter. */
  lemma WeightedSumExpanded(data: SensorData)
    ensures WeightedSum(data, Weights) ==
      20 * StatusScore(data.co2.status) + 20 * StatusScore(data.pm25.status)
      + 10 * StatusScore(data.pm10.status) + 15 * StatusScore(data.voc.status)
      + 10 * StatusScore(data.temperature.status) + 10 * StatusScore(data.humidity.status)
      + 10 * StatusScore(data.noise.status) + 5 * StatusScore(data.light.status)
  {
    var w := Weights;
    WeightedSumTail(data);
    assert WeightedSum(data, w[3..]) == 15 * StatusScore(data.voc.status) + WeightedSum(data, w[4..]);
    assert WeightedSum(data, w[2..]) == 10 * StatusScore(data.pm10.status) + WeightedSum(data, w[3..]);
    assert WeightedSum(data, w[1..]) == 20 * StatusScore(data.pm25.status) + WeightedSum(data, w[2..]);
    assert WeightedSum(data, w) == 20 * StatusScore(data.co2.status) + WeightedSum(data, w[1..]);
  }

  /** The last four terms of the weighted sum. */
  lemma WeightedSumTail(data: SensorData)
    ensures WeightedSum(data, Weights[4..]) ==
      10 * StatusScore(data.temperature.status) + 10 * StatusScore(data.humidity.status)
      + 10 * StatusScore(data.noise.status) + 5 * StatusScore(data.light.status)
  {
    var w := Weights;
    assert w[8..] == [];
    assert WeightedSum(data, w[7..]) == 5 * StatusScore(data.light.status) + WeightedSum(data, w[8..]);
    assert WeightedSum(data, w[6..]) == 10 * StatusScore(data.noise.status) + WeightedSum(data, w[7..]);
    assert WeightedSum(data, w[5..]) == 10 * StatusScore(data.humidity.status) + WeightedSum(data, w[6..]);
  }

  /** `Math.round(x / 100)` for a non-negative integer `x`: halves round up. */
  function RoundPercent(x: nat): (r: nat)
    ensures r * 100 <= x + 50 < r * 100 + 100
  {
    (x + 50) / 100
  }

  datatype HealthScore = HealthScore(score: int, status: HealthStatus)

  /** The overall status of a score. */
  function OverallStatus(score: int): (s: HealthStatus)
    ensures s == Good <==> score >= 80
    ensures s == Moderate <==> 60 <= score < 80
    ensures s == Poor <==> 35 <= score < 60
    ensures s == Hazardous <==> score < 35
  {
    if score >= 80 then Good
    else if score >= 60 then Moderate
    else if score >= 35 then Poor
    else Hazardous
  }

  /** All eight readings are good. */
  predicate AllGood(data: SensorData) {
    && data.co2.status == Good && data.pm25.status == Good && data.pm10.status == Good
    && data.voc.status == Good && data.temperature.status == Good && data.humidity.status == Good
    && data.noise.status == Good && data.light.status == Good
  }

  /** All eight readings are hazardous. */
  predicate AllHazardous(data: SensorData) {
    && data.co2.status == Hazardous && data.pm25.status == Hazardous && data.pm10.status == Hazardous
    && data.voc.status == Hazardous && data.temperature.status == Hazardous
    && data.humidity.status == Hazardous && data.noise.status == Hazardous
    && data.light.status == Hazardous
  }

  /** What `calculateHealthScore` returns, since the weights sum to one a score in [15, 100]. */
  function HealthScoreOf(data: SensorData): (h: HealthScore)
    ensures 15 <= h.score <= 100
    ensures h.status == OverallStatus(h.score)
  {
    WeightedSumExpanded(data);
    var score := RoundPercent(WeightedSum(data, Weights));
    HealthScore(score, OverallStatus(score))
  }

  /** The score is 100 exactly when every reading is good. */
  lemma ScoreIsHundredIffAllGood(data: SensorData)
    ensures HealthScoreOf(data).score == 100 <==> AllGood(data)
  {
    WeightedSumExpanded(data);
  }

  /** The score is 15 exactly when every reading is hazardous. */
  lemma ScoreIsFifteenIffAllHazardous(data: SensorData)
    ensures HealthScoreOf(data).score == 15 <==> AllHazardous(data)
  {
    WeightedSumExpanded(data);
  }

  /** `calculateHealthScore`: accumulates the weighted score over the weight table. */
  method CalculateHealthScore(data: SensorData) returns (h: HealthScore)
    ensures h == HealthScoreOf(data)
  {
    var weightedScore := 0;
    var i := 0;
    while i < |Weights|
      invariant 0 <= i <= |Weights|
      invariant weightedScore + WeightedSum(data, Weights[i..]) == WeightedSum(data, Weights)
    {
      var (key, weight) := Weights[i];
      weightedScore := weightedScore + StatusScore(ReadingOf(data, key).status) * weight;
      i := i + 1;
    }
    var score := RoundPercent(weightedScore);
    h := HealthScore(score, OverallStatus(score));
  }

  // ---------------------------------------------------------------------------
  // Recommendations
  // ---------------------------------------------------------------------------

  datatype Priority = High | Medium | Low

  datatype Recommendation = Recommendation(
    id: string, title: string, description: string, priority: Priority, icon: string, parameter: string)

  const VentilateText := "CO₂ levels are elevated. Open windows or increase air circulation to bring fresh air indoors."
  const PurifierText := "Particulate matter levels are high. Consider running an air purifier with HEPA filter."
  const ReduceHumidityText := "High humidity increases mold risk. Use a dehumidifier or improve ventilation."
  const IncreaseHumidityText := "Low humidity can cause respiratory discomfort. Consider using a humidifier."
  const NoiseText := "Noise levels are elevated. Consider noise-dampening solutions or relocating to a quieter area."
  const VocText := "VOC levels are elevated. Remove chemical sources and increase ventilation."
  const LowLightText := "Light levels are low. Increase natural or artificial lighting for better visibility."
  const HighLightText := "Light levels are high. Consider reducing direct light exposure."

  /** The six recommendation rules of `generateRecommendations`, in the order they are tried. */
  datatype RecRule = VentilateRule | PurifierRule | HumidityRule | NoiseRule | VocRule | LightingRule

  const RecRules: seq<RecRule> := [VentilateRule, PurifierRule, HumidityRule, NoiseRule, VocRule, LightingRule]

  function RecRank(rule: RecRule): int {
    match rule
    case VentilateRule => 0
    case PurifierRule => 1
    case HumidityRule => 2
    case NoiseRule => 3
    case VocRule => 4
    case LightingRule => 5
  }

  predicate RecRulesInOrder(rules: seq<RecRule>) {
    forall i, j :: 0 <= i < j < |rules| ==> RecRank(rules[i]) < RecRank(rules[j])
  }

  /** The condition under which a rule pushes its recommendation. */
  predicate RecFires(data: SensorData, rule: RecRule) {
    match rule
    case VentilateRule => data.co2.status != Good
    case PurifierRule => data.pm25.status != Good || data.pm10.status != Good
    case HumidityRule => data.humidity.status != Good
    case NoiseRule => data.noise.status != Good
    case VocRule => data.voc.status != Good
    case LightingRule => data.light.status != Good
  }

  /** When a rule's recommendation is high priority: only a hazardous driving status makes it so. */
  predicate HighPriorityCase(data: SensorData, rule: RecRule) {
    match rule
    case VentilateRule => data.co2.status == Hazardous
    case PurifierRule => data.pm25.status == Hazardous
    case HumidityRule => data.humidity.value > 60.0 && data.humidity.status == Hazardous
    case NoiseRule => data.noise.status == Hazardous
    case VocRule => data.voc.status == Hazardous
    case LightingRule => false
  }

  function PriorityFor(s: HealthStatus): Priority {
    if s == Hazardous then High else Medium
  }

  /** The recommendation a rule pushes. */
  function Recommend(data: SensorData, rule: RecRule): (r: Recommendation)
    ensures r.priority == High <==> HighPriorityCase(data, rule)
    ensures rule == LightingRule ==> r.priority == Low
    ensures rule == HumidityRule && data.humidity.value <= 60.0 ==> r.priority == Low
  {
    match rule
    case VentilateRule =>
      Recommendation("co2-ventilate", "Improve Ventilation", VentilateText,
        PriorityFor(data.co2.status), "Wind", "CO₂")
    case PurifierRule =>
      Recommendation("air-purifier", "Use Air Purifier", PurifierText,
        PriorityFor(data.pm25.status), "Filter", "PM2.5/PM10")
    case HumidityRule =>
      if data.humidity.value > 60.0 then
        Recommendation("reduce-humidity", "Reduce Humidity", ReduceHumidityText,
          PriorityFor(data.humidity.status), "Droplets", "Humidity")
      else
        Recommendation("increase-humidity", "Increase Humidity", IncreaseHumidityText,
          Low, "Droplets", "Humidity")
    case NoiseRule =>
      Recommendation("reduce-noise", "Reduce Noise Exposure", NoiseText,
        PriorityFor(data.noise.status), "VolumeX", "Noise")
    case VocRule =>
      Recommendation("reduce-voc", "Reduce Chemical Exposure", VocText,
        PriorityFor(data.voc.status), "FlaskConical", "VOCs")
    case LightingRule =>
      Recommendation("adjust-lighting", "Adjust Lighting",
        if data.light.value < 300.0 then LowLightText else HighLightText,
        Low, "Sun", "Light")
  }

  /** Different rules push recommendations with different ids. */
  lemma RecommendIdsDistinct(data: SensorData, a: RecRule, b: RecRule)
    requires a != b
    ensures Recommend(data, a).id != Recommend(data, b).id
  {
  }

  /** The rules of `rules` that fire, in their order. */
  function FiringRecRules(data: SensorData, rules: seq<RecRule>): (fired: seq<RecRule>)
    ensures |fired| <= |rules|
  {
    if rules == [] then []
    else (if RecFires(data, rules[0]) then [rules[0]] else []) + FiringRecRules(data, rules[1..])
  }

  /** Exactly the firing rules are kept, and their order is kept. */
  lemma {:induction false} FiringRecRulesKeep(data: SensorData, rules: seq<RecRule>)
    ensures forall rule :: rule in FiringRecRules(data, rules) <==> rule in rules && RecFires(data, rule)
    ensures RecRulesInOrder(rules) ==> RecRulesInOrder(FiringRecRules(data, rules))
  {
    if rules != [] {
      FiringRecRulesKeep(data, rules[1..]);
      var rest := FiringRecRules(data, rules[1..]);
      assert rules == [rules[0]] + rules[1..];
      if RecRulesInOrder(rules) {
        forall rule | rule in rest ensures RecRank(rules[0]) < RecRank(rule) {
          var k :| 0 <= k < |rules[1..]| && rules[1..][k] == rule;
          assert rules[k + 1] == rule;
        }
      }
    }
  }

  /** The recommendations of a list of rules, one each. */
  function RecommendAll(data: SensorData, rules: seq<RecRule>): (recs: seq<Recommendation>)
    ensures |recs| == |rules|
  {
    if rules == [] then [] else [Recommend(data, rules[0])] + RecommendAll(data, rules[1..])
  }

  lemma {:induction false} RecommendAllAt(data: SensorData, rules: seq<RecRule>, i: nat)
    requires i < |rules|
    ensures RecommendAll(data, rules)[i] == Recommend(data, rules[i])
  {
    if i > 0 {
      RecommendAllAt(data, rules[1..], i - 1);
    }
  }

  /** The rules whose recommendations survive the cut to four. */
  function SelectedRecRules(data: SensorData): (rules: seq<RecRule>)
    ensures |rules| <= 4
  {
    Take(FiringRecRules(data, RecRules), 4)
  }

  /** What `generateRecommendations` returns. */
  function RecommendationsOf(data: SensorData): seq<Recommendation> {
    RecommendAll(data, SelectedRecRules(data))
  }

  /** The selected rules all fire and keep rule order. */
  lemma SelectedRecRulesFire(data: SensorData)
    ensures forall i :: 0 <= i < |SelectedRecRules(data)| ==> RecFires(data, SelectedRecRules(data)[i])
    ensures RecRulesInOrder(SelectedRecRules(data))
  {
    var fired := FiringRecRules(data, RecRules);
    var rules := SelectedRecRules(data);
    FiringRecRulesKeep(data, RecRules);
    assert RecRulesInOrder(RecRules);
    forall i | 0 <= i < |rules| ensures RecFires(data, rules[i]) {
      assert rules[i] == fired[i];
      assert fired[i] in fired;
    }
  }

  /** The recommendations are those of the selected rules, one by one. */
  lemma SelectedRecommendations(data: SensorData)
    ensures |RecommendationsOf(data)| == |SelectedRecRules(data)| <= 4
    ensures forall i :: 0 <= i < |RecommendationsOf(data)| ==>
              RecommendationsOf(data)[i] == Recommend(data, SelectedRecRules(data)[i])
  {
    var rules := SelectedRecRules(data);
    forall i | 0 <= i < |rules| ensures RecommendationsOf(data)[i] == Recommend(data, rules[i]) {
      RecommendAllAt(data, rules, i);
    }
  }

  /** At most four recommendations, with pairwise distinct ids. */
  lemma RecommendationIdsUnique(data: SensorData)
    ensures |RecommendationsOf(data)| <= 4
    ensures forall i, j :: 0 <= i < j < |RecommendationsOf(data)| ==>
              RecommendationsOf(data)[i].id != RecommendationsOf(data)[j].id
  {
    var rules := SelectedRecRules(data);
    var recs := RecommendationsOf(data);
    SelectedRecRulesFire(data);
    SelectedRecommendations(data);
    forall i, j | 0 <= i < j < |recs| ensures recs[i].id != recs[j].id {
      RecommendIdsDistinct(data, rules[i], rules[j]);
    }
  }

  /** A firing rule is dropped only when more than four fire. */
  lemma NothingCutWhenFew(data: SensorData)
    ensures forall rule :: RecFires(data, rule) && |FiringRecRules(data, RecRules)| <= 4
              ==> rule in SelectedRecRules(data)
  {
    FiringRecRulesKeep(data, RecRules);
    forall rule | RecFires(data, rule) ensures rule in RecRules {
      assert RecRules[RecRank(rule)] == rule;
    }
  }

  /** The CO₂ rule comes first, so it is selected exactly when CO₂ is not good. */
  lemma VentilateSelectedIff(data: SensorData)
    ensures VentilateRule in SelectedRecRules(data) <==> data.co2.status != Good
  {
    var fired := FiringRecRules(data, RecRules);
    var rules := SelectedRecRules(data);
    FiringRecRulesKeep(data, RecRules);
    assert RecRules == [VentilateRule] + RecRules[1..];
    if data.co2.status != Good {
      assert fired == [VentilateRule] + FiringRecRules(data, RecRules[1..]);
      assert rules[0] == VentilateRule;
    }
  }

  lemma {:induction false} RecommendAllAppend(data: SensorData, a: seq<RecRule>, b: seq<RecRule>)
    ensures RecommendAll(data, a + b) == RecommendAll(data, a) + RecommendAll(data, b)
  {
    if a == [] {
      assert a + b == b;
    } else {
      assert (a + b)[0] == a[0];
      assert (a + b)[1..] == a[1..] + b;
      RecommendAllAppend(data, a[1..], b);
    }
  }

  lemma {:induction false} TakeOfRecommendAll(data: SensorData, rules: seq<RecRule>, n: nat)
    ensures Take(RecommendAll(data, rules), n) == RecommendAll(data, Take(rules, n))
  {
    if |rules| > n {
      assert rules == rules[..n] + rules[n..];
      RecommendAllAppend(data, rules[..n], rules[n..]);
    }
  }

  function RecRuleIf(data: SensorData, rule: RecRule): seq<RecRule> {
    if RecFires(data, rule) then [rule] else []
  }

  /**
    One `if (...) recommendations.push(...)` of `generateRecommendations`: tries the first of the
    remaining rules. Ghost `fired` is the list of rules that have fired so far.
  */
  method PushRecommendation(data: SensorData, rest: seq<RecRule>, recommendations: seq<Recommendation>,
                            ghost fired: seq<RecRule>, ghost target: seq<RecRule>)
    returns (next: seq<Recommendation>, ghost fired': seq<RecRule>)
    requires rest != []
    requires recommendations == RecommendAll(data, fired)
    requires fired + FiringRecRules(data, rest) == target
    ensures next == RecommendAll(data, fired')
    ensures fired' + FiringRecRules(data, rest[1..]) == target
  {
    var rule := rest[0];
    next, fired' := recommendations, fired;
    if RecFires(data, rule) {
      RecommendAllAppend(data, fired, [rule]);
      next := recommendations + [Recommend(data, rule)];
      fired' := fired + [rule];
    }
    assert fired + FiringRecRules(data, rest) == fired + RecRuleIf(data, rule) + FiringRecRules(data, rest[1..]);
  }

  /** `generateRecommendations`: pushes each applicable recommendation, then keeps the first four. */
  method GenerateRecommendations(data: SensorData) returns (recs: seq<Recommendation>)
    ensures recs == RecommendationsOf(data)
    ensures |recs| <= 4
  {
    var recommendations: seq<Recommendation> := [];
    ghost var fired: seq<RecRule> := [];
    ghost var target := FiringRecRules(data, RecRules);
    assert RecRules[0..] == RecRules;
    recommendations, fired := PushRecommendation(data, RecRules[0..], recommendations, fired, target);
    assert RecRules[0..][1..] == RecRules[1..];
    recommendations, fired := PushRecommendation(data, RecRules[1..], recommendations, fired, target);
    assert RecRules[1..][1..] == RecRules[2..];
    recommendations, fired := PushRecommendation(data, RecRules[2..], recommendations, fired, target);
    assert RecRules[2..][1..] == RecRules[3..];
    recommendations, fired := PushRecommendation(data, RecRules[3..], recommendations, fired, target);
    assert RecRules[3..][1..] == RecRules[4..];
    recommendations, fired := PushRecommendation(data, RecRules[4..], recommendations, fired, target);
    assert RecRules[4..][1..] == RecRules[5..];
    recommendations, fired := PushRecommendation(data, RecRules[5..], recommendations, fired, target);
    assert RecRules[5..][1..] == RecRules[6..];
    assert RecRules[6..] == [];
    assert fired == FiringRecRules(data, RecRules);
    TakeOfRecommendAll(data, fired, 4);
    recs := Take(recommendations, 4);
  }

  // ---------------------------------------------------------------------------
  // Alerts
  // ---------------------------------------------------------------------------

  /** An alert of the mock context; `kind` is the source's `type`. The message text is not modelled. */
  datatype Alert = Alert(id: string, kind: HealthStatus, parameter: string, timestamp: int, acknowledged: bool)

  datatype AlertRule = Co2Alert | Pm25Alert | HumidityAlert | NoiseAlert

  const AlertRules: seq<AlertRule> := [Co2Alert, Pm25Alert, HumidityAlert, NoiseAlert]

  function AlertRank(rule: AlertRule): int {
    match rule
    case Co2Alert => 0
    case Pm25Alert => 1
    case HumidityAlert => 2
    case NoiseAlert => 3
  }

  predicate AlertRulesInOrder(rules: seq<AlertRule>) {
    forall i, j :: 0 <= i < j < |rules| ==> AlertRank(rules[i]) < AlertRank(rules[j])
  }

  /** The status an alert rule looks at. */
  function AlertStatus(data: SensorData, rule: AlertRule): HealthStatus {
    match rule
    case Co2Alert => data.co2.status
    case Pm25Alert => data.pm25.status
    case HumidityAlert => data.humidity.status
    case NoiseAlert => data.noise.status
  }

  /** CO₂, PM2.5 and noise alert from poor on; humidity only when hazardous. */
  predicate AlertFires(data: SensorData, rule: AlertRule) {
    if rule == HumidityAlert then AlertStatus(data, rule) == Hazardous
    else AlertStatus(data, rule) == Poor || AlertStatus(data, rule) == Hazardous
  }

  function AlertId(rule: AlertRule): string {
    match rule
    case Co2Alert => "alert-co2"
    case Pm25Alert => "alert-pm25"
    case HumidityAlert => "alert-humidity"
    case NoiseAlert => "alert-noise"
  }

  function AlertParameter(rule: AlertRule): string {
    match rule
    case Co2Alert => "CO₂"
    case Pm25Alert => "PM2.5"
    case HumidityAlert => "Humidity"
    case NoiseAlert => "Noise"
  }

  /** The alert a rule pushes at time `now`: typed by its parameter's status, not yet acknowledged. */
  function MakeAlert(data: SensorData, rule: AlertRule, now: int): Alert {
    Alert(AlertId(rule), AlertStatus(data, rule), AlertParameter(rule), now, false)
  }

  /** The rules of `rules` that fire, in their order. */
  function FiringAlertRules(data: SensorData, rules: seq<AlertRule>): (fired: seq<AlertRule>)
    ensures |fired| <= |rules|
  {
    if rules == [] then []
    else (if AlertFires(data, rules[0]) then [rules[0]] else []) + FiringAlertRules(data, rules[1..])
  }

  /** Exactly the firing rules are kept, and their order is kept. */
  lemma {:induction false} FiringAlertRulesKeep(data: SensorData, rules: seq<AlertRule>)
    ensures forall rule :: rule in FiringAlertRules(data, rules) <==> rule in rules && AlertFires(data, rule)
    ensures AlertRulesInOrder(rules) ==> AlertRulesInOrder(FiringAlertRules(data, rules))
  {
    if rules != [] {
      FiringAlertRulesKeep(data, rules[1..]);
      var rest := FiringAlertRules(data, rules[1..]);
      assert rules == [rules[0]] + rules[1..];
      if AlertRulesInOrder(rules) {
        forall rule | rule in rest ensures AlertRank(rules[0]) < AlertRank(rule) {
          var k :| 0 <= k < |rules[1..]| && rules[1..][k] == rule;
          assert rules[k + 1] == rule;
        }
      }
    }
  }

  function AlertAll(data: SensorData, rules: seq<AlertRule>, now: int): (alerts: seq<Alert>)
    ensures |alerts| == |rules|
  {
    if rules == [] then [] else [MakeAlert(data, rules[0], now)] + AlertAll(data, rules[1..], now)
  }

  lemma {:induction false} AlertAllAt(data: SensorData, rules: seq<AlertRule>, now: int, i: nat)
    requires i < |rules|
    ensures AlertAll(data, rules, now)[i] == MakeAlert(data, rules[i], now)
  {
    if i > 0 {
      AlertAllAt(data, rules[1..], now, i - 1);
    }
  }

  lemma {:induction false} AlertAllAppend(data: SensorData, a: seq<AlertRule>, b: seq<AlertRule>, now: int)
    ensures AlertAll(data, a + b, now) == AlertAll(data, a, now) + AlertAll(data, b, now)
  {
    if a == [] {
      assert a + b == b;
    } else {
      assert (a + b)[0] == a[0];
      assert (a + b)[1..] == a[1..] + b;
      AlertAllAppend(data, a[1..], b, now);
    }
  }

  function SelectedAlertRules(data: SensorData): seq<AlertRule> {
    FiringAlertRules(data, AlertRules)
  }

  /** What `generateAlerts` returns at time `now`. */
  function AlertsOf(data: SensorData, now: int): seq<Alert> {
    AlertAll(data, SelectedAlertRules(data), now)
  }

  /**
    At most four alerts, in rule order, none acknowledged, all stamped `now`; the alert of a rule
    is present exactly when the rule fires, and it is typed with its parameter's status.
  */
  lemma AlertsProperties(data: SensorData, now: int)
    ensures |AlertsOf(data, now)| == |SelectedAlertRules(data)| <= 4
    ensures AlertRulesInOrder(SelectedAlertRules(data))
    ensures forall rule :: rule in SelectedAlertRules(data) <==> AlertFires(data, rule)
    ensures forall i :: 0 <= i < |AlertsOf(data, now)| ==>
              AlertsOf(data, now)[i] == MakeAlert(data, SelectedAlertRules(data)[i], now)
    ensures forall a :: a in AlertsOf(data, now) ==> !a.acknowledged && a.timestamp == now
    ensures forall a :: a in AlertsOf(data, now) ==> a.kind == Poor || a.kind == Hazardous
  {
    var rules := SelectedAlertRules(data);
    var alerts := AlertsOf(data, now);
    FiringAlertRulesKeep(data, AlertRules);
    assert AlertRulesInOrder(AlertRules);
    forall rule ensures rule in AlertRules {
      assert AlertRules[AlertRank(rule)] == rule;
    }
    forall i | 0 <= i < |alerts| ensures alerts[i] == MakeAlert(data, rules[i], now) {
      AlertAllAt(data, rules, now, i);
    }
    forall a | a in alerts ensures a.kind == Poor || a.kind == Hazardous {
      var i :| 0 <= i < |alerts| && alerts[i] == a;
      AlertAllAt(data, rules, now, i);
      assert rules[i] in rules;
    }
  }

  function AlertRuleIf(data: SensorData, rule: AlertRule): seq<AlertRule> {
    if AlertFires(data, rule) then [rule] else []
  }

  /**
    One `if (...) alerts.push(...)` of `generateAlerts`: tries the first of the remaining rules.
    Ghost `fired` is the list of rules that have fired so far.
  */
  method PushAlert(data: SensorData, rest: seq<AlertRule>, now: int, alerts: seq<Alert>,
                   ghost fired: seq<AlertRule>, ghost target: seq<AlertRule>)
    returns (next: seq<Alert>, ghost fired': seq<AlertRule>)
    requires rest != []
    requires alerts == AlertAll(data, fired, now)
    requires fired + FiringAlertRules(data, rest) == target
    ensures next == AlertAll(data, fired', now)
    ensures fired' + FiringAlertRules(data, rest[1..]) == target
  {
    var rule := rest[0];
    next, fired' := alerts, fired;
    if AlertFires(data, rule) {
      AlertAllAppend(data, fired, [rule], now);
      next := alerts + [MakeAlert(data, rule, now)];
      fired' := fired + [rule];
    }
    assert fired + FiringAlertRules(data, rest)
           == fired + AlertRuleIf(data, rule) + FiringAlertRules(data, rest[1..]);
  }

  /** `generateAlerts`: pushes one alert per firing rule, stamped with `now`. */
  method GenerateAlerts(data: SensorData, now: int) returns (alerts: seq<Alert>)
    ensures alerts == AlertsOf(data, now)
  {
    alerts := [];
    ghost var fired: seq<AlertRule> := [];
    ghost var target := FiringAlertRules(data, AlertRules);
    assert AlertRules[0..] == AlertRules;
    alerts, fired := PushAlert(data, AlertRules[0..], now, alerts, fired, target);
    assert AlertRules[0..][1..] == AlertRules[1..];
    alerts, fired := PushAlert(data, AlertRules[1..], now, alerts, fired, target);
    assert AlertRules[1..][1..] == AlertRules[2..];
    alerts, fired := PushAlert(data, AlertRules[2..], now, alerts, fired, target);
    assert AlertRules[2..][1..] == AlertRules[3..];
    alerts, fired := PushAlert(data, AlertRules[3..], now, alerts, fired, target);
    assert AlertRules[3..][1..] == AlertRules[4..];
    assert AlertRules[4..] == [];
    assert fired == FiringAlertRules(data, AlertRules);
  }

  /** When every reading is good there is nothing to recommend and nothing to alert. */
  lemma AllGoodIsQuiet(data: SensorData, now: int)
    requires AllGood(data)
    ensures RecommendationsOf(data) == [] && AlertsOf(data, now) == []
  {
    FiringRecRulesKeep(data, RecRules);
    FiringAlertRulesKeep(data, AlertRules);
    var recRules := FiringRecRules(data, RecRules);
    var alertRules := FiringAlertRules(data, AlertRules);
    assert forall i :: 0 <= i < |recRules| ==> recRules[i] in recRules;
    assert forall i :: 0 <= i < |alertRules| ==> alertRules[i] in alertRules;
  }
}
