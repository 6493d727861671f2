/** The backend's four independent recommendation rules. */
module RecommendationEngine {
  import opened Common

  /** The rules, in the order the engine tries them. */
  datatype Rule = AirQualityRule | NoiseRule | TemperatureRule | HumidityRule

  function RuleAt(i: nat): (r: Rule)
    requires i < 4
    ensures RuleRank(r) == i
  {
    if i == 0 then AirQualityRule else if i == 1 then NoiseRule else if i == 2 then TemperatureRule else HumidityRule
  }

  function RuleRank(r: Rule): nat {
    match r
    case AirQualityRule => 0
    case NoiseRule => 1
    case TemperatureRule => 2
    case HumidityRule => 3
  }

  /** The engine indexes these four fields directly, so each must be present and hold a number. */
  predicate HasRecommendationFields(data: Dict) {
    HasNumber(data, "pm25") && HasNumber(data, "noise") &&
    HasNumber(data, "temperature") && HasNumber(data, "humidity")
  }

  /** Each rule's strict threshold. */
  predicate Applies(data: Dict, r: Rule)
    requires HasRecommendationFields(data)
  {
    match r
    case AirQualityRule => data["pm25"].value > 35.0
    case NoiseRule => data["noise"].value > 85.0
    case TemperatureRule => data["temperature"].value > 35.0
    case HumidityRule => data["humidity"].value < 30.0
  }

  datatype EngineRecommendation = EngineRecommendation(title: string, message: string)

  const AirQualityText := "Increase ventilation or use an air purifier."
  const NoiseText := "Lower volume or move to a quieter environment."
  const TemperatureText := "Turn on cooling or improve airflow."
  const HumidityText := "Use a humidifier to improve comfort."

  function Recommend(r: Rule): EngineRecommendation {
    match r
    case AirQualityRule => EngineRecommendation("Improve Air Quality", AirQualityText)
    case NoiseRule => EngineRecommendation("Reduce Noise Exposure", NoiseText)
    case TemperatureRule => EngineRecommendation("High Temperature", TemperatureText)
    case HumidityRule => EngineRecommendation("Low Humidity", HumidityText)
  }

  /** Different rules give different titles. */
  lemma TitlesDistinct(a: Rule, b: Rule)
    requires a != b
    ensures Recommend(a).title != Recommend(b).title
  {
  }

  /** What the first `k` rules append. */
  function RecommendationsUpTo(data: Dict, k: nat): (recs: seq<EngineRecommendation>)
    requires HasRecommendationFields(data) && k <= 4
    ensures |recs| <= k
  {
    if k == 0 then []
    else RecommendationsUpTo(data, k - 1) + (if Applies(data, RuleAt(k - 1)) then [Recommend(RuleAt(k - 1))] else [])
  }

  /** What `generate_recommendations` returns. */
  function RecommendationsOf(data: Dict): seq<EngineRecommendation>
    requires HasRecommendationFields(data)
  {
    RecommendationsUpTo(data, 4)
  }

  /** The rank of a title; titles are distinct, so this undoes `Recommend`. */
  function TitleRank(title: string): int
    ensures forall r :: title == Recommend(r).title ==> TitleRank(title) == RuleRank(r)
  {
    if title == "Improve Air Quality" then 0 else if title == "Reduce Noise Exposure" then 1
    else if title == "High Temperature" then 2 else if title == "Low Humidity" then 3 else -1
  }

  /**
    The recommendations of the first `k` rules: in rule order, each from a rule that applies,
    and one for every such rule.
  */
  lemma {:induction false} RecommendationsUpToShape(data: Dict, k: nat)
    requires HasRecommendationFields(data) && k <= 4
    ensures forall rec :: rec in RecommendationsUpTo(data, k) ==>
              0 <= TitleRank(rec.title) < k && Applies(data, RuleAt(TitleRank(rec.title))) &&
              rec == Recommend(RuleAt(TitleRank(rec.title)))
    ensures forall r :: RuleRank(r) < k && Applies(data, r) ==> Recommend(r) in RecommendationsUpTo(data, k)
    ensures forall i, j :: 0 <= i < j < |RecommendationsUpTo(data, k)| ==>
              TitleRank(RecommendationsUpTo(data, k)[i].title) < TitleRank(RecommendationsUpTo(data, k)[j].title)
  {
    if k > 0 {
      RecommendationsUpToShape(data, k - 1);
      var prev := RecommendationsUpTo(data, k - 1);
      forall i | 0 <= i < |prev| ensures TitleRank(prev[i].title) < k - 1 {
        assert prev[i] in prev;
      }
      forall r | RuleRank(r) < k && Applies(data, r) ensures Recommend(r) in RecommendationsUpTo(data, k) {
        if RuleRank(r) == k - 1 {
          assert RuleAt(RuleRank(r)) == r;
        }
      }
    }
  }

  /**
    At most four recommendations in the order pm25, noise, temperature, humidity; a rule's
    recommendation is present exactly when its threshold holds, and the list is empty exactly
    when no threshold holds.
  */
  lemma RecommendationsProperties(data: Dict)
    requires HasRecommendationFields(data)
    ensures |RecommendationsOf(data)| <= 4
    ensures forall i, j :: 0 <= i < j < |RecommendationsOf(data)| ==>
              TitleRank(RecommendationsOf(data)[i].title) < TitleRank(RecommendationsOf(data)[j].title)
    ensures forall r :: Recommend(r) in RecommendationsOf(data) <==> Applies(data, r)
    ensures RecommendationsOf(data) == [] <==> forall r :: !Applies(data, r)
  {
    RecommendationsUpToShape(data, 4);
    var recs := RecommendationsOf(data);
    forall r | Recommend(r) in recs ensures Applies(data, r) {
      assert RuleAt(RuleRank(r)) == r;
    }
    assert recs != [] ==> recs[0] in recs;
  }

  /** `generate_recommendations`: four independent `if`s appending to a local list. */
  method GenerateRecommendations(data: Dict) returns (recs: seq<EngineRecommendation>)
    requires HasRecommendationFields(data)
    ensures recs == RecommendationsOf(data)
  {
    recs := [];
    if data["pm25"].value > 35.0 {
      recs := recs + [EngineRecommendation("Improve Air Quality", AirQualityText)];
    }
    assert recs == RecommendationsUpTo(data, 1);
    if data["noise"].value > 85.0 {
      recs := recs + [EngineRecommendation("Reduce Noise Exposure", NoiseText)];
    }
    assert recs == RecommendationsUpTo(data, 2);
    if data["temperature"].value > 35.0 {
      recs := recs + [EngineRecommendation("High Temperature", TemperatureText)];
    }
    assert recs == RecommendationsUpTo(data, 3);
    if data["humidity"].value < 30.0 {
      recs := recs + [EngineRecommendation("Low Humidity", HumidityText)];
    }
  }
}
