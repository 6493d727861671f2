/**
  The backend's health score: three buckets (respiratory 50, thermal 30, stressors 20) from
  which each out-of-range reading deducts points, each bucket clamped at zero, plus the list of
  reasons for the deductions and the level the total falls into.
*/
module HealthEngine {
  import opened Common

  datatype Level = Good | Moderate | Poor | Hazardous

  /** The level of a score: Good from 80, Moderate from 60, Poor from 40, Hazardous below. */
  function LevelOf(score: int): (l: Level)
    ensures l == Good <==> score >= 80
    ensures l == Moderate <==> 60 <= score < 80
    ensures l == Poor <==> 40 <= score < 60
    ensures l == Hazardous <==> score < 40
  {
    if score >= 80 then Good else if score >= 60 then Moderate else if score >= 40 then Poor else Hazardous
  }

  /** Why points were deducted; the readings that the reason texts print are carried along. */
  datatype Reason =
    | HighPm25(pm25: real) | ModeratePm25(pm25: real)
    | HighPm10(pm10: real) | ElevatedPm10(pm10: real)
    | HighCo2(co2: real) | PoorVentilation(co2: real)
    | HighVocs(vocs: real)
    | ExtremeTemp | UncomfortableTemp
    | HighHumidity | PoorHumidity
    | HighNoiseStress | DistractingNoise
    | DimLighting | Glare

  /** The eight readings after their defaults have been filled in. */
  datatype Readings = Readings(
    pm25: real, pm10: real, co2: real, vocs: real,
    temperature: real, humidity: real, noise: real, light: real)

  /** The neutral defaults a missing or `None` field takes. */
  const Defaults := Readings(0.0, 0.0, 400.0, 0.0, 22.0, 50.0, 40.0, 350.0)

  function ReadingsOf(data: Dict): Readings {
    Readings(
      GetOr(data, "pm25", Defaults.pm25), GetOr(data, "pm10", Defaults.pm10),
      GetOr(data, "co2", Defaults.co2), GetOr(data, "vocs", Defaults.vocs),
      GetOr(data, "temperature", Defaults.temperature), GetOr(data, "humidity", Defaults.humidity),
      GetOr(data, "noise", Defaults.noise), GetOr(data, "light", Defaults.light))
  }

  /** One parameter's verdict: the points it deducts and the reason it appends, if any. */
  datatype Check = Check(deduction: nat, reason: Option<Reason>)

  /** A check deducts points exactly when it appends a reason. */
  predicate WellFormed(c: Check) {
    c.deduction > 0 <==> c.reason.Some?
  }

  function Pm25Check(v: real): (c: Check)
    ensures WellFormed(c)
    ensures (c.deduction == 30 <==> v > 35.0) && (c.deduction == 15 <==> 15.0 < v <= 35.0)
  {
    if v > 35.0 then Check(30, Some(HighPm25(v)))
    else if v > 15.0 then Check(15, Some(ModeratePm25(v)))
    else Check(0, None)
  }

  function Pm10Check(v: real): (c: Check)
    ensures WellFormed(c)
    ensures (c.deduction == 20 <==> v > 100.0) && (c.deduction == 10 <==> 45.0 < v <= 100.0)
  {
    if v > 100.0 then Check(20, Some(HighPm10(v)))
    else if v > 45.0 then Check(10, Some(ElevatedPm10(v)))
    else Check(0, None)
  }

  function Co2Check(v: real): (c: Check)
    ensures WellFormed(c)
    ensures (c.deduction == 15 <==> v > 1200.0) && (c.deduction == 5 <==> 800.0 < v <= 1200.0)
  {
    if v > 1200.0 then Check(15, Some(HighCo2(v)))
    else if v > 800.0 then Check(5, Some(PoorVentilation(v)))
    else Check(0, None)
  }

  function VocsCheck(v: real): (c: Check)
    ensures WellFormed(c)
    ensures (c.deduction == 10 <==> v > 500.0) && (c.deduction == 0 <==> v <= 500.0)
  {
    if v > 500.0 then Check(10, Some(HighVocs(v))) else Check(0, None)
  }

  function TemperatureCheck(v: real): (c: Check)
    ensures WellFormed(c)
    ensures (c.deduction == 20 <==> v < 15.0 || v > 32.0)
    ensures (c.deduction == 10 <==> (15.0 <= v < 18.0 || 27.0 < v <= 32.0))
  {
    if v < 15.0 || v > 32.0 then Check(20, Some(ExtremeTemp))
    else if v < 18.0 || v > 27.0 then Check(10, Some(UncomfortableTemp))
    else Check(0, None)
  }

  function HumidityCheck(v: real): (c: Check)
    ensures WellFormed(c)
    ensures (c.deduction == 15 <==> v > 70.0) && (c.deduction == 10 <==> v < 30.0 || 60.0 < v <= 70.0)
  {
    if v > 70.0 then Check(15, Some(HighHumidity))
    else if v < 30.0 || v > 60.0 then Check(10, Some(PoorHumidity))
    else Check(0, None)
  }

  function NoiseCheck(v: real): (c: Check)
    ensures WellFormed(c)
    ensures (c.deduction == 15 <==> v > 75.0) && (c.deduction == 5 <==> 55.0 < v <= 75.0)
  {
    if v > 75.0 then Check(15, Some(HighNoiseStress))
    else if v > 55.0 then Check(5, Some(DistractingNoise))
    else Check(0, None)
  }

  function LightCheck(v: real): (c: Check)
    ensures WellFormed(c)
    ensures (c.deduction == 5 <==> v < 100.0 || v > 1000.0) && (c.deduction == 0 <==> 100.0 <= v <= 1000.0)
  {
    if v < 100.0 then Check(5, Some(DimLighting))
    else if v > 1000.0 then Check(5, Some(Glare))
    else Check(0, None)
  }

  /** The reason a check appends, as a list of zero or one. */
  function ReasonOf(c: Check): seq<Reason> {
    if c.reason.Some? then [c.reason.value] else []
  }

  /** The eight checks in the order the engine runs them. */
  function CheckAt(r: Readings, i: nat): (c: Check)
    requires i < 8
    ensures WellFormed(c)
  {
    if i == 0 then Pm25Check(r.pm25)
    else if i == 1 then Pm10Check(r.pm10)
    else if i == 2 then Co2Check(r.co2)
    else if i == 3 then VocsCheck(r.vocs)
    else if i == 4 then TemperatureCheck(r.temperature)
    else if i == 5 then HumidityCheck(r.humidity)
    else if i == 6 then NoiseCheck(r.noise)
    else LightCheck(r.light)
  }

  /** Respiratory health: 50 minus the PM2.5, PM10, CO2 and VOC deductions, at least 0. */
  function BucketA(r: Readings): (a: int)
    ensures 0 <= a <= 50
  {
    Max(50 - CheckAt(r, 0).deduction - CheckAt(r, 1).deduction
           - CheckAt(r, 2).deduction - CheckAt(r, 3).deduction, 0)
  }

  /** Thermal comfort: 30 minus the temperature and humidity deductions, at least 0. */
  function BucketB(r: Readings): (b: int)
    ensures 0 <= b <= 30
  {
    Max(30 - CheckAt(r, 4).deduction - CheckAt(r, 5).deduction, 0)
  }

  /** Environmental stressors: 20 minus the noise and light deductions, at least 0. */
  function BucketC(r: Readings): (c: int)
    ensures 0 <= c <= 20
  {
    Max(20 - CheckAt(r, 6).deduction - CheckAt(r, 7).deduction, 0)
  }

  /** The reasons the first `k` checks append, in order. */
  function ReasonsUpTo(r: Readings, k: nat): (rs: seq<Reason>)
    requires k <= 8
    ensures |rs| <= k
  {
    if k == 0 then [] else ReasonsUpTo(r, k - 1) + ReasonOf(CheckAt(r, k - 1))
  }

  /** No reason among the first `k` checks exactly when none of them deducts. */
  lemma {:induction false} NoReasonsIffNoDeductions(r: Readings, k: nat)
    requires k <= 8
    ensures ReasonsUpTo(r, k) == [] <==> forall i :: 0 <= i < k ==> CheckAt(r, i).deduction == 0
  {
    if k > 0 {
      NoReasonsIffNoDeductions(r, k - 1);
    }
  }

  function ReasonsOf(r: Readings): seq<Reason> {
    ReasonsUpTo(r, 8)
  }

  datatype HealthReport = HealthReport(score: int, level: Level, reasons: seq<Reason>)

  /** The report for a set of filled-in readings. */
  function ReportOf(r: Readings): (h: HealthReport)
    ensures 0 <= h.score <= 100
    ensures h.level == LevelOf(h.score)
  {
    var total := Max(0, Min(100, BucketA(r) + BucketB(r) + BucketC(r)));
    HealthReport(total, LevelOf(total), ReasonsOf(r))
  }

  /** What `calculate_health_score` returns for a dict. */
  function HealthReportOf(data: Dict): HealthReport {
    ReportOf(ReadingsOf(data))
  }

  /** The total is the sum of the buckets: the final clamp to [0,100] never binds. */
  lemma TotalIsSumOfBuckets(r: Readings)
    ensures ReportOf(r).score == BucketA(r) + BucketB(r) + BucketC(r)
  {
  }

  /** At most one reason per parameter, so at most eight. */
  lemma AtMostEightReasons(r: Readings)
    ensures |ReportOf(r).reasons| <= 8
  {
  }

  /** The score is 100 exactly when nothing is wrong, that is when there is no reason. */
  lemma FullScoreIffNoReasons(r: Readings)
    ensures ReportOf(r).score == 100 <==> ReportOf(r).reasons == []
  {
    NoReasonsIffNoDeductions(r, 8);
  }

  /** An empty dict takes every default: full score, Good, and no reasons. */
  lemma EmptyDictIsHealthy()
    ensures HealthReportOf(map[]) == HealthReport(100, Good, [])
  {
    assert ReadingsOf(map[]) == Defaults;
  }

  /** The five pollutant fields whose rise can only cost points. */
  datatype Pollutant = Pm25 | Pm10 | Co2 | Vocs | Noise

  function PollutantKey(p: Pollutant): string {
    match p
    case Pm25 => "pm25"
    case Pm10 => "pm10"
    case Co2 => "co2"
    case Vocs => "vocs"
    case Noise => "noise"
  }

  function WithPollutant(r: Readings, p: Pollutant, x: real): Readings {
    match p
    case Pm25 => r.(pm25 := x)
    case Pm10 => r.(pm10 := x)
    case Co2 => r.(co2 := x)
    case Vocs => r.(vocs := x)
    case Noise => r.(noise := x)
  }

  /** Setting a pollutant's field in the dict sets that reading and no other. */
  lemma SetPollutantField(data: Dict, p: Pollutant, x: real)
    ensures ReadingsOf(data[PollutantKey(p) := Some(x)]) == WithPollutant(ReadingsOf(data), p, x)
  {
  }

  /** A larger pollutant reading never raises the score. */
  lemma PollutantMonotone(r: Readings, p: Pollutant, a: real, b: real)
    requires a <= b
    ensures ReportOf(WithPollutant(r, p, b)).score <= ReportOf(WithPollutant(r, p, a)).score
  {
    var ra := WithPollutant(r, p, a);
    var rb := WithPollutant(r, p, b);
    match p
    case Pm25 => assert CheckAt(ra, 0).deduction <= CheckAt(rb, 0).deduction;
    case Pm10 => assert CheckAt(ra, 1).deduction <= CheckAt(rb, 1).deduction;
    case Co2 => assert CheckAt(ra, 2).deduction <= CheckAt(rb, 2).deduction;
    case Vocs => assert CheckAt(ra, 3).deduction <= CheckAt(rb, 3).deduction;
    case Noise => assert CheckAt(ra, 6).deduction <= CheckAt(rb, 6).deduction;
  }

  /** The same monotonicity, stated on the dict the engine receives. */
  lemma DictPollutantMonotone(data: Dict, p: Pollutant, a: real, b: real)
    requires a <= b
    ensures HealthReportOf(data[PollutantKey(p) := Some(b)]).score
            <= HealthReportOf(data[PollutantKey(p) := Some(a)]).score
  {
    SetPollutantField(data, p, a);
    SetPollutantField(data, p, b);
    PollutantMonotone(ReadingsOf(data), p, a, b);
  }

  /** Category A of `calculate_health_score`: PM2.5, PM10, CO2 and VOCs, from 50 down to at least 0. */
  method RespiratoryBucket(data: Dict) returns (scoreA: int, reasons: seq<Reason>)
    ensures scoreA == BucketA(ReadingsOf(data))
    ensures reasons == ReasonsUpTo(ReadingsOf(data), 4)
  {
    ghost var rd := ReadingsOf(data);
    scoreA := 50;
    reasons := [];

    var pm25 := GetOr(data, "pm25", 0.0);
    if pm25 > 35.0 {
      scoreA := scoreA - 30;
      reasons := reasons + [HighPm25(pm25)];
    } else if pm25 > 15.0 {
      scoreA := scoreA - 15;
      reasons := reasons + [ModeratePm25(pm25)];
    }
    assert reasons == ReasonsUpTo(rd, 1);
    var pm10 := GetOr(data, "pm10", 0.0);
    if pm10 > 100.0 {
      scoreA := scoreA - 20;
      reasons := reasons + [HighPm10(pm10)];
    } else if pm10 > 45.0 {
      scoreA := scoreA - 10;
      reasons := reasons + [ElevatedPm10(pm10)];
    }
    assert reasons == ReasonsUpTo(rd, 2);
    var co2 := GetOr(data, "co2", 400.0);
    if co2 > 1200.0 {
      scoreA := scoreA - 15;
      reasons := reasons + [HighCo2(co2)];
    } else if co2 > 800.0 {
      scoreA := scoreA - 5;
      reasons := reasons + [PoorVentilation(co2)];
    }
    assert reasons == ReasonsUpTo(rd, 3);
    var vocs := GetOr(data, "vocs", 0.0);
    if vocs > 500.0 {
      scoreA := scoreA - 10;
      reasons := reasons + [HighVocs(vocs)];
    }
    assert reasons == ReasonsUpTo(rd, 4);
    assert scoreA == 50 - CheckAt(rd, 0).deduction - CheckAt(rd, 1).deduction
                     - CheckAt(rd, 2).deduction - CheckAt(rd, 3).deduction;
    scoreA := Max(scoreA, 0);
    assert scoreA == BucketA(rd);

  }

  /** Category B: temperature and humidity, from 30 down to at least 0. */
  method ThermalBucket(data: Dict, reasons0: seq<Reason>) returns (scoreB: int, reasons: seq<Reason>)
    requires reasons0 == ReasonsUpTo(ReadingsOf(data), 4)
    ensures scoreB == BucketB(ReadingsOf(data))
    ensures reasons == ReasonsUpTo(ReadingsOf(data), 6)
  {
    ghost var rd := ReadingsOf(data);
    scoreB := 30;
    reasons := reasons0;

    var temp := GetOr(data, "temperature", 22.0);
    if temp < 15.0 || temp > 32.0 {
      scoreB := scoreB - 20;
      reasons := reasons + [ExtremeTemp];
    } else if temp < 18.0 || temp > 27.0 {
      scoreB := scoreB - 10;
      reasons := reasons + [UncomfortableTemp];
    }
    assert reasons == ReasonsUpTo(rd, 5);
    var humidity := GetOr(data, "humidity", 50.0);
    if humidity > 70.0 {
      scoreB := scoreB - 15;
      reasons := reasons + [HighHumidity];
    } else if humidity < 30.0 || humidity > 60.0 {
      scoreB := scoreB - 10;
      reasons := reasons + [PoorHumidity];
    }
    assert reasons == ReasonsUpTo(rd, 6);
    assert scoreB == 30 - CheckAt(rd, 4).deduction - CheckAt(rd, 5).deduction;
    scoreB := Max(scoreB, 0);
    assert scoreB == BucketB(rd);

  }

  /** Category C: noise and light, from 20 down to at least 0. */
  method StressorBucket(data: Dict, reasons0: seq<Reason>) returns (scoreC: int, reasons: seq<Reason>)
    requires reasons0 == ReasonsUpTo(ReadingsOf(data), 6)
    ensures scoreC == BucketC(ReadingsOf(data))
    ensures reasons == ReasonsUpTo(ReadingsOf(data), 8)
  {
    ghost var rd := ReadingsOf(data);
    scoreC := 20;
    reasons := reasons0;

    var noise := GetOr(data, "noise", 40.0);
    if noise > 75.0 {
      scoreC := scoreC - 15;
      reasons := reasons + [HighNoiseStress];
    } else if noise > 55.0 {
      scoreC := scoreC - 5;
      reasons := reasons + [DistractingNoise];
    }
    assert reasons == ReasonsUpTo(rd, 7);
    var light := GetOr(data, "light", 350.0);
    if light < 100.0 {
      scoreC := scoreC - 5;
      reasons := reasons + [DimLighting];
    } else if light > 1000.0 {
      scoreC := scoreC - 5;
      reasons := reasons + [Glare];
    }
    assert reasons == ReasonsUpTo(rd, 8);
    assert scoreC == 20 - CheckAt(rd, 6).deduction - CheckAt(rd, 7).deduction;
    scoreC := Max(scoreC, 0);
    assert scoreC == BucketC(rd);

  }

  /** `calculate_health_score`: the three buckets in turn, then the clamped total and its level. */
  method CalculateHealthScore(data: Dict) returns (report: HealthReport)
    ensures report == HealthReportOf(data)
  {
    var scoreA, reasons := RespiratoryBucket(data);
    var scoreB, scoreC;
    scoreB, reasons := ThermalBucket(data, reasons);
    scoreC, reasons := StressorBucket(data, reasons);
    var total := scoreA + scoreB + scoreC;
    total := Max(0, Min(100, total));
    var level := if total >= 80 then Good else if total >= 60 then Moderate else if total >= 40 then Poor else Hazardous;
    report := HealthReport(total, level, reasons);
  }
}
