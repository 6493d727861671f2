/**
  The `/api` routes of the Monacos router: an in-memory cache of each device's latest reading,
  a score of 100 minus fixed deductions, and three threshold alerts.
*/
module Monacos {
  import opened Common
  import HealthEngine

  /** The body of a POST to `/api/ingest`; `timestamp` is the device's clock, in microseconds. */
  datatype SensorPayload = SensorPayload(
    deviceId: string, location: Option<string>, timestamp: int,
    temperature: real, humidity: real, pm25: real, pm10: real,
    airQuality: real, noise: real, light: real)

  /** A cached entry: the payload's fields, with the server's receive time as its timestamp. */
  datatype Snapshot = Snapshot(
    deviceId: string, location: Option<string>,
    temperature: real, humidity: real, pm25: real, pm10: real,
    airQuality: real, noise: real, light: real, timestamp: int)

  /** The entry `ingest_data` caches: every payload field except its timestamp, which is `now`. */
  function SnapshotOf(p: SensorPayload, now: int): (s: Snapshot)
    ensures s.timestamp == now && s.deviceId == p.deviceId && s.location == p.location
    ensures s.temperature == p.temperature && s.humidity == p.humidity
    ensures s.pm25 == p.pm25 && s.pm10 == p.pm10 && s.airQuality == p.airQuality
    ensures s.noise == p.noise && s.light == p.light
  {
    Snapshot(p.deviceId, p.location, p.temperature, p.humidity, p.pm25, p.pm10,
             p.airQuality, p.noise, p.light, now)
  }

  const NoData := "No data for device"

  // ---------------------------------------------------------------------------
  // Health score
  // ---------------------------------------------------------------------------

  /** The four deductions, in the order the route checks them. */
  datatype Concern = HighPm25 | ElevatedPm10 | NoiseExposure | HighHumidity

  function ConcernRank(c: Concern): nat {
    match c
    case HighPm25 => 0
    case ElevatedPm10 => 1
    case NoiseExposure => 2
    case HighHumidity => 3
  }

  /** The reason text the route reports for each deduction. */
  function ConcernText(c: Concern): string {
    match c
    case HighPm25 => "High PM2.5 concentration"
    case ElevatedPm10 => "Elevated PM10 levels"
    case NoiseExposure => "Noise exposure exceeds comfort limits"
    case HighHumidity => "High humidity may increase mold risk"
  }

  /** The points each deduction takes off. */
  function Deduction(c: Concern): (d: nat)
    ensures d == 10 <==> c == HighHumidity
    ensures d == 20 <==> c != HighHumidity
  {
    if c == HighHumidity then 10 else 20
  }

  /** Whether the reading triggers a deduction: pm25 > 35, pm10 > 50, noise > 70, humidity > 65. */
  predicate Raised(s: Snapshot, c: Concern) {
    match c
    case HighPm25 => s.pm25 > 35.0
    case ElevatedPm10 => s.pm10 > 50.0
    case NoiseExposure => s.noise > 70.0
    case HighHumidity => s.humidity > 65.0
  }

  function If(b: bool, c: Concern): seq<Concern> {
    if b then [c] else []
  }

  /** The reasons of a reading, in check order. */
  function ConcernsOf(s: Snapshot): seq<Concern> {
    If(Raised(s, HighPm25), HighPm25) + If(Raised(s, ElevatedPm10), ElevatedPm10)
      + If(Raised(s, NoiseExposure), NoiseExposure) + If(Raised(s, HighHumidity), HighHumidity)
  }

  /** The points a list of reasons takes off. */
  function DeductionSum(cs: seq<Concern>): (n: nat)
    ensures n <= 20 * |cs|
  {
    if cs == [] then 0 else Deduction(cs[0]) + DeductionSum(cs[1..])
  }

  lemma {:induction false} DeductionSumAppend(a: seq<Concern>, b: seq<Concern>)
    ensures DeductionSum(a + b) == DeductionSum(a) + DeductionSum(b)
  {
    if a == [] {
      assert a + b == b;
    } else {
      assert (a + b)[0] == a[0];
      assert (a + b)[1..] == a[1..] + b;
      DeductionSumAppend(a[1..], b);
    }
  }

  datatype RouteReport = RouteReport(score: int, level: HealthEngine.Level, reasons: seq<Concern>)

  /** The report of `get_health_score` for one cached reading. */
  function ReportOf(s: Snapshot): RouteReport {
    var score := 100
      - (if Raised(s, HighPm25) then 20 else 0)
      - (if Raised(s, ElevatedPm10) then 20 else 0)
      - (if Raised(s, NoiseExposure) then 20 else 0)
      - (if Raised(s, HighHumidity) then 10 else 0);
    var clamped := Max(score, 0);
    RouteReport(clamped, HealthEngine.LevelOf(clamped), ConcernsOf(s))
  }

  /** The score is 100 minus the points of exactly the reasons reported; the clamp never binds. */
  lemma ScoreIsDeductions(s: Snapshot)
    ensures ReportOf(s).score == 100 - DeductionSum(ReportOf(s).reasons)
    ensures 30 <= ReportOf(s).score <= 100
    ensures ReportOf(s).score == 100 <==> ReportOf(s).reasons == []
  {
    var a := If(Raised(s, HighPm25), HighPm25);
    var b := If(Raised(s, ElevatedPm10), ElevatedPm10);
    var c := If(Raised(s, NoiseExposure), NoiseExposure);
    var d := If(Raised(s, HighHumidity), HighHumidity);
    IfPoints(Raised(s, HighPm25), HighPm25);
    IfPoints(Raised(s, ElevatedPm10), ElevatedPm10);
    IfPoints(Raised(s, NoiseExposure), NoiseExposure);
    IfPoints(Raised(s, HighHumidity), HighHumidity);
    DeductionSumAppend(a, b);
    DeductionSumAppend(a + b, c);
    DeductionSumAppend(a + b + c, d);
    assert ConcernsOf(s) == a + b + c + d;
  }

  lemma IfPoints(b: bool, c: Concern)
    ensures DeductionSum(If(b, c)) == if b then Deduction(c) else 0
  {
    if b {
      assert If(b, c)[1..] == [];
    }
  }

  /** Each triggered deduction is reported once, and the reasons come in check order. */
  lemma ReasonsProperties(s: Snapshot)
    ensures |ReportOf(s).reasons| <= 4
    ensures forall c :: c in ReportOf(s).reasons <==> Raised(s, c)
    ensures forall i, j :: 0 <= i < j < |ReportOf(s).reasons| ==>
              ConcernRank(ReportOf(s).reasons[i]) < ConcernRank(ReportOf(s).reasons[j])
  {
  }

  /** The level follows the score; it is Hazardous only when all four deductions apply. */
  lemma LevelProperties(s: Snapshot)
    ensures ReportOf(s).level == HealthEngine.LevelOf(ReportOf(s).score)
    ensures ReportOf(s).level == HealthEngine.Hazardous <==>
      Raised(s, HighPm25) && Raised(s, ElevatedPm10) && Raised(s, NoiseExposure) && Raised(s, HighHumidity)
  {
  }

  // ---------------------------------------------------------------------------
  // Alerts
  // ---------------------------------------------------------------------------

  datatype AlertKind = Pm25Alert | Pm10Alert | NoiseAlert
  datatype Severity = Warning | Critical

  function KindRank(k: AlertKind): nat {
    match k
    case Pm25Alert => 0
    case Pm10Alert => 1
    case NoiseAlert => 2
  }

  function Parameter(k: AlertKind): string {
    match k
    case Pm25Alert => "PM2.5"
    case Pm10Alert => "PM10"
    case NoiseAlert => "Noise"
  }

  function AlertMessage(k: AlertKind): string {
    match k
    case Pm25Alert => "PM2.5 levels are unhealthy"
    case Pm10Alert => "PM10 levels are elevated"
    case NoiseAlert => "Noise levels are hazardous"
  }

  /** Particulates warn; noise is critical. */
  function SeverityOf(k: AlertKind): (sev: Severity)
    ensures sev == Critical <==> k == NoiseAlert
  {
    if k == NoiseAlert then Critical else Warning
  }

  /** Whether the reading raises the alert: pm25 > 35, pm10 > 50, noise > 80. */
  predicate Fires(s: Snapshot, k: AlertKind) {
    match k
    case Pm25Alert => s.pm25 > 35.0
    case Pm10Alert => s.pm10 > 50.0
    case NoiseAlert => s.noise > 80.0
  }

  /**
    An alert as the route returns it. `id` is the parameter, a dash and the clock's text `stamp`;
    `timestamp` is the clock in microseconds.
  */
  datatype RouteAlert = RouteAlert(id: string, parameter: string, message: string, severity: Severity, timestamp: int)

  function MakeAlert(k: AlertKind, stamp: string, now: int): RouteAlert {
    RouteAlert(Parameter(k) + "-" + stamp, Parameter(k), AlertMessage(k), SeverityOf(k), now)
  }

  function AlertIf(s: Snapshot, k: AlertKind, stamp: string, now: int): seq<RouteAlert> {
    if Fires(s, k) then [MakeAlert(k, stamp, now)] else []
  }

  /** The alerts of one cached reading, in check order. */
  function AlertsOfSnapshot(s: Snapshot, stamp: string, now: int): seq<RouteAlert> {
    AlertIf(s, Pm25Alert, stamp, now) + AlertIf(s, Pm10Alert, stamp, now) + AlertIf(s, NoiseAlert, stamp, now)
  }

  /** What `get_alerts` returns: nothing for a device without a cached reading. */
  function RouteAlertsOf(latest: map<string, Snapshot>, deviceId: string, stamp: string, now: int): seq<RouteAlert> {
    if deviceId !in latest then [] else AlertsOfSnapshot(latest[deviceId], stamp, now)
  }

  /**
    At most three alerts, in check order, each present exactly when its threshold is crossed,
    with distinct ids; an unknown device has none.
  */
  lemma AlertsProperties(latest: map<string, Snapshot>, deviceId: string, stamp: string, now: int)
    ensures var alerts := RouteAlertsOf(latest, deviceId, stamp, now);
      && |alerts| <= 3
      && (deviceId !in latest ==> alerts == [])
      && (deviceId in latest ==> forall k :: MakeAlert(k, stamp, now) in alerts <==> Fires(latest[deviceId], k))
      && (forall a :: a in alerts ==> exists k :: a == MakeAlert(k, stamp, now))
      && (forall i, j :: 0 <= i < j < |alerts| ==> alerts[i].id != alerts[j].id)
  {
    var alerts := RouteAlertsOf(latest, deviceId, stamp, now);
    forall i, j | 0 <= i < j < |alerts|
      ensures alerts[i].id != alerts[j].id
    {
      IdsDiffer(alerts[i], alerts[j], stamp, now);
    }
  }

  /** The rank of a parameter name; names are distinct, so this undoes `Parameter`. */
  function ParameterRank(p: string): (n: int)
    ensures forall k :: p == Parameter(k) ==> n == KindRank(k)
  {
    if p == "PM2.5" then 0 else if p == "PM10" then 1 else if p == "Noise" then 2 else -1
  }

  /** The alerts come in check order: PM2.5, then PM10, then noise. */
  lemma AlertsInCheckOrder(latest: map<string, Snapshot>, deviceId: string, stamp: string, now: int)
    ensures var alerts := RouteAlertsOf(latest, deviceId, stamp, now);
      forall i, j :: 0 <= i < j < |alerts| ==>
        0 <= ParameterRank(alerts[i].parameter) < ParameterRank(alerts[j].parameter)
  {
  }

  /** Two alerts of different kinds have different ids. */
  lemma IdsDiffer(a: RouteAlert, b: RouteAlert, stamp: string, now: int)
    requires exists k: AlertKind :: a == MakeAlert(k, stamp, now)
    requires exists k: AlertKind :: b == MakeAlert(k, stamp, now)
    requires a.parameter != b.parameter
    ensures a.id != b.id
  {
    if a.parameter == "PM2.5" || b.parameter == "PM2.5" {
      assert a.id[2] != b.id[2] || a.id[0] != b.id[0];
    } else {
      assert a.id[0] != b.id[0];
    }
  }

  /** Every alert comes with a score deduction for the same pollutant. */
  lemma AlertsImplyReasons(s: Snapshot, stamp: string, now: int)
    ensures MakeAlert(Pm25Alert, stamp, now) in AlertsOfSnapshot(s, stamp, now) ==> HighPm25 in ReportOf(s).reasons
    ensures MakeAlert(Pm10Alert, stamp, now) in AlertsOfSnapshot(s, stamp, now) ==> ElevatedPm10 in ReportOf(s).reasons
    ensures MakeAlert(NoiseAlert, stamp, now) in AlertsOfSnapshot(s, stamp, now) ==> NoiseExposure in ReportOf(s).reasons
  {
    ReasonsProperties(s);
    var m := map[s.deviceId := s];
    AlertsProperties(m, s.deviceId, stamp, now);
  }

  // ---------------------------------------------------------------------------
  // The router's state
  // ---------------------------------------------------------------------------

  /** `LATEST_DATA`: the latest cached reading per device id. */
  class LatestCache {
    var latestData: map<string, Snapshot>

    constructor ()
      ensures latestData == map[]
    {
      latestData := map[];
    }

    /** The in-memory half of `ingest_data`: replaces that device's entry and no other. */
    method IngestData(payload: SensorPayload, now: int)
      modifies this
      ensures latestData == old(latestData)[payload.deviceId := SnapshotOf(payload, now)]
      ensures forall id :: id in old(latestData) && id != payload.deviceId ==>
                id in latestData && latestData[id] == old(latestData)[id]
      ensures latestData.Keys == old(latestData).Keys + {payload.deviceId}
    {
      latestData := latestData[payload.deviceId := SnapshotOf(payload, now)];
    }

    /** `get_latest`: the cached reading, or 404. */
    method GetLatest(deviceId: string) returns (r: Result<Snapshot>)
      ensures deviceId in latestData ==> r == Ok(latestData[deviceId])
      ensures deviceId !in latestData ==> r == Err(404, NoData)
    {
      if deviceId !in latestData {
        return Err(404, NoData);
      }
      return Ok(latestData[deviceId]);
    }

    /** `get_health_score`: the report of the cached reading, or 404. */
    method GetHealthScore(deviceId: string) returns (r: Result<RouteReport>)
      ensures deviceId in latestData ==> r == Ok(ReportOf(latestData[deviceId]))
      ensures deviceId !in latestData ==> r == Err(404, NoData)
    {
      if deviceId !in latestData {
        return Err(404, NoData);
      }
      var data := latestData[deviceId];
      var score := 100;
      var reasons: seq<Concern> := [];
      if data.pm25 > 35.0 {
        score := score - 20;
        reasons := reasons + [HighPm25];
      }
      assert reasons == If(Raised(data, HighPm25), HighPm25);
      if data.pm10 > 50.0 {
        score := score - 20;
        reasons := reasons + [ElevatedPm10];
      }
      assert reasons == If(Raised(data, HighPm25), HighPm25) + If(Raised(data, ElevatedPm10), ElevatedPm10);
      if data.noise > 70.0 {
        score := score - 20;
        reasons := reasons + [NoiseExposure];
      }
      assert reasons == If(Raised(data, HighPm25), HighPm25) + If(Raised(data, ElevatedPm10), ElevatedPm10)
        + If(Raised(data, NoiseExposure), NoiseExposure);
      if data.humidity > 65.0 {
        score := score - 10;
        reasons := reasons + [HighHumidity];
      }
      assert reasons == ConcernsOf(data);
      assert score == 100
        - (if Raised(data, HighPm25) then 20 else 0)
        - (if Raised(data, ElevatedPm10) then 20 else 0)
        - (if Raised(data, NoiseExposure) then 20 else 0)
        - (if Raised(data, HighHumidity) then 10 else 0);
      score := Max(score, 0);
      var level := if score >= 80 then HealthEngine.Good
        else if score >= 60 then HealthEngine.Moderate
        else if score >= 40 then HealthEngine.Poor
        else HealthEngine.Hazardous;
      return Ok(RouteReport(score, level, reasons));
    }

    /** `get_alerts`: the alerts of the cached reading, or none for an unknown device. */
    method GetAlerts(deviceId: string, stamp: string, now: int) returns (alerts: seq<RouteAlert>)
      ensures alerts == RouteAlertsOf(latestData, deviceId, stamp, now)
    {
      if deviceId !in latestData {
        return [];
      }
      var data := latestData[deviceId];
      alerts := [];
      if data.pm25 > 35.0 {
        alerts := alerts + [MakeAlert(Pm25Alert, stamp, now)];
      }
      if data.pm10 > 50.0 {
        alerts := alerts + [MakeAlert(Pm10Alert, stamp, now)];
      }
      if data.noise > 80.0 {
        alerts := alerts + [MakeAlert(NoiseAlert, stamp, now)];
      }
    }
  }

  /** After an ingest, both reading routes answer from the new payload. */
  method IngestThenRead(cache: LatestCache, payload: SensorPayload, now: int)
    returns (latest: Result<Snapshot>, report: Result<RouteReport>)
    modifies cache
    ensures latest == Ok(SnapshotOf(payload, now))
    ensures report == Ok(ReportOf(SnapshotOf(payload, now))) && 30 <= report.value.score <= 100
  {
    cache.IngestData(payload, now);
    latest := cache.GetLatest(payload.deviceId);
    report := cache.GetHealthScore(payload.deviceId);
    ScoreIsDeductions(SnapshotOf(payload, now));
  }
}
