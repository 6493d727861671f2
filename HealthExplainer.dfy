/**
  The "why this score" panel of the dashboard: the factor explanations derived from a reading,
  and the condition under which the panel instead reports that every parameter is optimal.
*/
module HealthExplainer {
  import opened Common
  import opened MockData

  /** The five candidate explanations, in the order they are tried. */
  datatype Factor = Co2Factor | MoldFactor | Pm25Factor | VocFactor | NoiseFactor

  const Factors: seq<Factor> := [Co2Factor, MoldFactor, Pm25Factor, VocFactor, NoiseFactor]

  function FactorRank(f: Factor): int {
    match f
    case Co2Factor => 0
    case MoldFactor => 1
    case Pm25Factor => 2
    case VocFactor => 3
    case NoiseFactor => 4
  }

  /** The `parameter` label the panel shows. */
  function FactorName(f: Factor): string {
    match f
    case Co2Factor => "CO₂"
    case MoldFactor => "Humidity + Temperature"
    case Pm25Factor => "PM2.5"
    case VocFactor => "VOCs"
    case NoiseFactor => "Noise"
  }

  /** One explanation; its `impact` text is not modelled. */
  datatype Explanation = Explanation(factor: Factor, severity: HealthStatus)

  predicate FactorsInOrder(es: seq<Explanation>) {
    forall i, j :: 0 <= i < j < |es| ==> FactorRank(es[i].factor) < FactorRank(es[j].factor)
  }

  /** Mold risk is judged on the raw values, whatever the statuses say. */
  predicate MoldRisk(data: SensorData) {
    data.humidity.value > 60.0 && data.temperature.value > 22.0
  }

  /** When a factor's explanation is pushed. */
  predicate Fires(data: SensorData, f: Factor) {
    match f
    case Co2Factor => data.co2.status != Good
    case MoldFactor => MoldRisk(data)
    case Pm25Factor => data.pm25.status != Good
    case VocFactor => data.voc.status != Good
    case NoiseFactor => data.noise.status != Good
  }

  /** The explanation a factor pushes, with its severity. */
  function Explain(data: SensorData, f: Factor): (e: Explanation)
    ensures e.factor == f
    ensures f == Co2Factor ==>
              (e.severity == Hazardous <==> data.co2.value > 1500.0) &&
              (e.severity == Poor <==> 1000.0 < data.co2.value <= 1500.0) &&
              (e.severity == Moderate <==> data.co2.value <= 1000.0)
    ensures f == MoldFactor ==> (e.severity == Hazardous <==> data.humidity.value > 75.0) &&
                                (e.severity == Poor <==> data.humidity.value <= 75.0)
    ensures f == Pm25Factor ==> e.severity == data.pm25.status
    ensures f == VocFactor ==> e.severity == data.voc.status
    ensures f == NoiseFactor ==> e.severity == data.noise.status
  {
    match f
    case Co2Factor =>
      Explanation(f, if data.co2.value > 1500.0 then Hazardous
                     else if data.co2.value > 1000.0 then Poor
                     else Moderate)
    case MoldFactor => Explanation(f, if data.humidity.value > 75.0 then Hazardous else Poor)
    case Pm25Factor => Explanation(f, data.pm25.status)
    case VocFactor => Explanation(f, data.voc.status)
    case NoiseFactor => Explanation(f, data.noise.status)
  }

  /** The explanations the factors of `fs` push, in their order. */
  function ExplainFrom(data: SensorData, fs: seq<Factor>): (es: seq<Explanation>)
    ensures |es| <= |fs|
  {
    if fs == [] then []
    else (if Fires(data, fs[0]) then [Explain(data, fs[0])] else []) + ExplainFrom(data, fs[1..])
  }

  predicate FactorListInOrder(fs: seq<Factor>) {
    forall i, j :: 0 <= i < j < |fs| ==> FactorRank(fs[i]) < FactorRank(fs[j])
  }

  /**
    Every explanation comes from a listed factor that fires, every firing factor contributes
    its explanation, and the order of the factors is kept.
  */
  lemma {:induction false} ExplainFromKeep(data: SensorData, fs: seq<Factor>)
    ensures forall e :: e in ExplainFrom(data, fs) ==>
              e.factor in fs && Fires(data, e.factor) && e == Explain(data, e.factor)
    ensures forall f :: f in fs && Fires(data, f) ==> Explain(data, f) in ExplainFrom(data, fs)
    ensures FactorListInOrder(fs) ==> FactorsInOrder(ExplainFrom(data, fs))
  {
    if fs != [] {
      ExplainFromKeep(data, fs[1..]);
      var rest := ExplainFrom(data, fs[1..]);
      assert fs == [fs[0]] + fs[1..];
      if FactorListInOrder(fs) {
        forall e | e in rest ensures FactorRank(fs[0]) < FactorRank(e.factor) {
          var k :| 0 <= k < |fs[1..]| && fs[1..][k] == e.factor;
          assert fs[k + 1] == e.factor;
        }
      }
    }
  }

  /** What `getExplanations` returns: the first three explanations pushed. */
  function ExplanationsOf(data: SensorData): seq<Explanation> {
    Take(ExplainFrom(data, Factors), 3)
  }

  function ExplainIf(data: SensorData, f: Factor): seq<Explanation> {
    if Fires(data, f) then [Explain(data, f)] else []
  }

  /** The first two candidates lead the full list. */
  lemma ExplainFromHead(data: SensorData)
    ensures ExplainFrom(data, Factors)
            == ExplainIf(data, Co2Factor) + ExplainIf(data, MoldFactor) + ExplainFrom(data, Factors[2..])
  {
    assert Factors[1..][1..] == Factors[2..];
    assert ExplainFrom(data, Factors[1..]) == ExplainIf(data, MoldFactor) + ExplainFrom(data, Factors[2..]);
  }

  /**
    At most three explanations, in candidate order, each from a firing factor with the
    severity that factor gives; nothing is cut when at most three fire.
  */
  lemma ExplanationsProperties(data: SensorData)
    ensures |ExplanationsOf(data)| <= 3
    ensures FactorsInOrder(ExplanationsOf(data))
    ensures forall e :: e in ExplanationsOf(data) ==> Fires(data, e.factor) && e == Explain(data, e.factor)
    ensures |ExplainFrom(data, Factors)| <= 3 ==>
              forall f :: Fires(data, f) ==> Explain(data, f) in ExplanationsOf(data)
  {
    var all := ExplainFrom(data, Factors);
    var es := ExplanationsOf(data);
    ExplainFromKeep(data, Factors);
    assert FactorListInOrder(Factors);
    forall f ensures f in Factors {
      assert Factors[FactorRank(f)] == f;
    }
    forall e | e in es ensures e in all {
      var k :| 0 <= k < |es| && es[k] == e;
      assert all[k] == e;
    }
  }

  /** The CO₂ and mold-risk explanations, tried first, are never cut: present exactly when they fire. */
  lemma FirstTwoNeverCut(data: SensorData)
    ensures Explain(data, Co2Factor) in ExplanationsOf(data) <==> data.co2.status != Good
    ensures Explain(data, MoldFactor) in ExplanationsOf(data) <==> MoldRisk(data)
  {
    ExplanationsProperties(data);
    ExplainFromHead(data);
    var all := ExplainFrom(data, Factors);
    var head := ExplainIf(data, Co2Factor) + ExplainIf(data, MoldFactor);
    var es := ExplanationsOf(data);
    assert all[..|head|] == head;
    assert es[..|head|] == head;
    if data.co2.status != Good {
      assert head[0] == Explain(data, Co2Factor);
      assert es[0] == head[0];
    }
    if MoldRisk(data) {
      assert head[|head| - 1] == Explain(data, MoldFactor);
      assert es[|head| - 1] == head[|head| - 1];
    }
  }

  /**
    One `if (...) explanations.push(...)` of `getExplanations`: tries the first of the remaining
    factors; what is pushed so far, followed by what the rest push, stays the full list.
  */
  method PushExplanation(data: SensorData, rest: seq<Factor>, explanations: seq<Explanation>)
    returns (next: seq<Explanation>)
    requires rest != []
    requires explanations + ExplainFrom(data, rest) == ExplainFrom(data, Factors)
    ensures next + ExplainFrom(data, rest[1..]) == ExplainFrom(data, Factors)
  {
    var f := rest[0];
    next := explanations;
    if Fires(data, f) {
      next := explanations + [Explain(data, f)];
    }
    assert explanations + ExplainFrom(data, rest)
           == (next + ExplainFrom(data, rest[1..]));
  }

  /** `getExplanations`: pushes each candidate explanation in turn, then keeps the first three. */
  method GetExplanations(data: SensorData) returns (r: seq<Explanation>)
    ensures r == ExplanationsOf(data)
  {
    var explanations: seq<Explanation> := [];
    assert Factors[0..] == Factors;
    explanations := PushExplanation(data, Factors[0..], explanations);
    assert Factors[0..][1..] == Factors[1..];
    explanations := PushExplanation(data, Factors[1..], explanations);
    assert Factors[1..][1..] == Factors[2..];
    explanations := PushExplanation(data, Factors[2..], explanations);
    assert Factors[2..][1..] == Factors[3..];
    explanations := PushExplanation(data, Factors[3..], explanations);
    assert Factors[3..][1..] == Factors[4..];
    explanations := PushExplanation(data, Factors[4..], explanations);
    assert Factors[4..][1..] == [];
    r := Take(explanations, 3);
  }

  /** The panel shows "all parameters optimal" when nothing is explained and the status is good. */
  predicate ShowsAllOptimal(explanations: seq<Explanation>, score: HealthScore) {
    |explanations| == 0 && score.status == Good
  }

  /** The optimal panel appears exactly when no factor fires and the overall status is good. */
  lemma AllOptimalIff(data: SensorData)
    ensures ShowsAllOptimal(ExplanationsOf(data), HealthScoreOf(data)) <==>
              (forall f :: !Fires(data, f)) && HealthScoreOf(data).score >= 80
  {
    ExplainFromKeep(data, Factors);
    ExplanationsProperties(data);
    forall f ensures f in Factors {
      assert Factors[FactorRank(f)] == f;
    }
    var all := ExplainFrom(data, Factors);
    assert |ExplanationsOf(data)| == 0 <==> |all| == 0;
    forall f | Fires(data, f) ensures all != [] {
      assert Explain(data, f) in all;
    }
    assert all != [] ==> all[0] in all;
    assert HealthScoreOf(data).status == Good <==> HealthScoreOf(data).score >= 80;
  }
}
