/**
  The backend's threshold alerts: at most one alert per sensor, each High or Medium, all
  stamped with the time of the call.
*/
module AlertsEngine {
  import opened Common

  datatype Severity = High | Medium

  /** The four sensors, in the order the engine checks them. */
  datatype Sensor = MQ135 | PMS5003 | SoundSensor | BME680

  function SensorAt(i: nat): (s: Sensor)
    requires i < 4
    ensures SensorRank(s) == i
  {
    if i == 0 then MQ135 else if i == 1 then PMS5003 else if i == 2 then SoundSensor else BME680
  }

  function SensorRank(s: Sensor): nat {
    match s
    case MQ135 => 0
    case PMS5003 => 1
    case SoundSensor => 2
    case BME680 => 3
  }

  /** The `sensor` field of an alert. */
  function SensorName(s: Sensor): string {
    match s
    case MQ135 => "MQ135"
    case PMS5003 => "PMS5003"
    case SoundSensor => "Sound Sensor"
    case BME680 => "BME680"
  }

  /** The rank of a sensor name; names are distinct, so this undoes `SensorName`. */
  function NameRank(name: string): int
    ensures forall s :: name == SensorName(s) ==> NameRank(name) == SensorRank(s)
  {
    if name == "MQ135" then 0 else if name == "PMS5003" then 1
    else if name == "Sound Sensor" then 2 else if name == "BME680" then 3 else -1
  }

  /** The dict field each sensor is judged on. */
  function SensorKey(s: Sensor): string {
    match s
    case MQ135 => "air_quality"
    case PMS5003 => "pm25"
    case SoundSensor => "noise"
    case BME680 => "humidity"
  }

  /** The engine indexes these four fields directly, so each must be present and hold a number. */
  predicate HasAlertFields(data: Dict) {
    HasNumber(data, "air_quality") && HasNumber(data, "pm25") &&
    HasNumber(data, "noise") && HasNumber(data, "humidity")
  }

  function Field(data: Dict, s: Sensor): real
    requires HasAlertFields(data)
  {
    data[SensorKey(s)].value
  }

  /** Each sensor's `if`/`elif`: the severity of its alert, if it raises one. */
  function Verdict(data: Dict, s: Sensor): (v: Option<Severity>)
    requires HasAlertFields(data)
    ensures s == MQ135 ==> (v == Some(High) <==> Field(data, s) > 1200.0) &&
                           (v == Some(Medium) <==> 900.0 < Field(data, s) <= 1200.0)
    ensures s == PMS5003 ==> (v == Some(High) <==> Field(data, s) > 50.0) &&
                             (v == Some(Medium) <==> 35.0 < Field(data, s) <= 50.0)
    ensures s == SoundSensor ==> (v == Some(High) <==> Field(data, s) > 90.0) &&
                                 (v == Some(Medium) <==> 75.0 < Field(data, s) <= 90.0)
    ensures s == BME680 ==> (v.Some? <==> Field(data, s) > 75.0) && v != Some(High)
  {
    var x := Field(data, s);
    match s
    case MQ135 => if x > 1200.0 then Some(High) else if x > 900.0 then Some(Medium) else None
    case PMS5003 => if x > 50.0 then Some(High) else if x > 35.0 then Some(Medium) else None
    case SoundSensor => if x > 90.0 then Some(High) else if x > 75.0 then Some(Medium) else None
    case BME680 => if x > 75.0 then Some(Medium) else None
  }

  /** An alert as the engine emits it; there is no `id` field. */
  datatype EngineAlert = EngineAlert(
    severity: Severity, title: string, message: string, sensor: string, timestamp: int)

  function Title(s: Sensor, sev: Severity): string {
    match s
    case MQ135 => if sev == High then "Poor Air Quality" else "Elevated Air Quality Levels"
    case PMS5003 => if sev == High then "High PM2.5 Levels" else "Moderate PM2.5 Levels"
    case SoundSensor => if sev == High then "Excessive Noise Exposure" else "Elevated Noise Levels"
    case BME680 => "High Humidity"
  }

  const AirHighText := "Air quality levels are very high. Improve ventilation immediately."
  const AirMediumText := "Consider increasing ventilation."
  const PmHighText := "Fine particulate matter is high. Use air purifier if available."
  const PmMediumText := "Particulate matter is above ideal range."
  const NoiseHighText := "Noise levels are too high. Prolonged exposure may cause discomfort."
  const NoiseMediumText := "Noise levels are higher than comfortable."
  const HumidityText := "High humidity may increase mold growth risk."

  function Message(s: Sensor, sev: Severity): string {
    match s
    case MQ135 => if sev == High then AirHighText else AirMediumText
    case PMS5003 => if sev == High then PmHighText else PmMediumText
    case SoundSensor => if sev == High then NoiseHighText else NoiseMediumText
    case BME680 => HumidityText
  }

  function MakeAlert(s: Sensor, sev: Severity, now: int): EngineAlert {
    EngineAlert(sev, Title(s, sev), Message(s, sev), SensorName(s), now)
  }

  /** What the checks of the first `k` sensors append. */
  function AlertsUpTo(data: Dict, now: int, k: nat): (alerts: seq<EngineAlert>)
    requires HasAlertFields(data) && k <= 4
    ensures |alerts| <= k
  {
    if k == 0 then []
    else
      var s := SensorAt(k - 1);
      AlertsUpTo(data, now, k - 1)
      + (match Verdict(data, s) case Some(sev) => [MakeAlert(s, sev, now)] case None => [])
  }

  /** What `generate_alerts` returns when called at time `now`. */
  function AlertsOf(data: Dict, now: int): seq<EngineAlert>
    requires HasAlertFields(data)
  {
    AlertsUpTo(data, now, 4)
  }

  lemma SensorAtRank(s: Sensor)
    ensures SensorAt(SensorRank(s)) == s
  {
  }

  /** The sensor an alert names. */
  function SensorOf(a: EngineAlert): Sensor
    requires 0 <= NameRank(a.sensor) < 4
  {
    SensorAt(NameRank(a.sensor))
  }

  /**
    The alerts of the first `k` sensors: in sensor order, each from a sensor whose verdict is
    an alert, with that verdict's severity, and one for every such sensor.
  */
  lemma {:induction false} AlertsUpToShape(data: Dict, now: int, k: nat)
    requires HasAlertFields(data) && k <= 4
    ensures forall a :: a in AlertsUpTo(data, now, k) ==>
              0 <= NameRank(a.sensor) < k && Verdict(data, SensorOf(a)) == Some(a.severity) &&
              a == MakeAlert(SensorOf(a), a.severity, now)
    ensures forall s :: SensorRank(s) < k && Verdict(data, s).Some? ==>
              MakeAlert(s, Verdict(data, s).value, now) in AlertsUpTo(data, now, k)
    ensures forall i, j :: 0 <= i < j < |AlertsUpTo(data, now, k)| ==>
              NameRank(AlertsUpTo(data, now, k)[i].sensor) < NameRank(AlertsUpTo(data, now, k)[j].sensor)
  {
    if k > 0 {
      AlertsUpToShape(data, now, k - 1);
      var s := SensorAt(k - 1);
      var prev := AlertsUpTo(data, now, k - 1);
      var alerts := AlertsUpTo(data, now, k);
      forall i | 0 <= i < |prev| ensures NameRank(prev[i].sensor) < k - 1 {
        assert prev[i] in prev;
      }
      forall t | SensorRank(t) < k && Verdict(data, t).Some?
        ensures MakeAlert(t, Verdict(data, t).value, now) in alerts
      {
        if SensorRank(t) == k - 1 {
          SensorAtRank(t);
        }
      }
    }
  }

  /** At most four alerts, at most one per sensor, in the order MQ135, PMS5003, Sound Sensor, BME680. */
  lemma AlertsOrder(data: Dict, now: int)
    requires HasAlertFields(data)
    ensures |AlertsOf(data, now)| <= 4
    ensures forall i, j :: 0 <= i < j < |AlertsOf(data, now)| ==>
              NameRank(AlertsOf(data, now)[i].sensor) < NameRank(AlertsOf(data, now)[j].sensor)
    ensures forall i, j :: 0 <= i < j < |AlertsOf(data, now)| ==>
              AlertsOf(data, now)[i].sensor != AlertsOf(data, now)[j].sensor
  {
    AlertsUpToShape(data, now, 4);
  }

  /**
    A sensor's alert is present exactly when its verdict is an alert, and carries that
    verdict's severity; every alert carries the call's time.
  */
  lemma AlertsPresence(data: Dict, now: int)
    requires HasAlertFields(data)
    ensures forall s :: Verdict(data, s).Some? <==>
              exists a :: a in AlertsOf(data, now) && a.sensor == SensorName(s)
    ensures forall s, a :: a in AlertsOf(data, now) && a.sensor == SensorName(s) ==>
              Verdict(data, s) == Some(a.severity) && a == MakeAlert(s, a.severity, now)
    ensures forall a :: a in AlertsOf(data, now) ==> a.timestamp == now
  {
    AlertsUpToShape(data, now, 4);
    var alerts := AlertsOf(data, now);
    forall s | Verdict(data, s).Some?
      ensures exists a :: a in alerts && a.sensor == SensorName(s)
    {
      assert MakeAlert(s, Verdict(data, s).value, now) in alerts;
    }
    forall s, a | a in alerts && a.sensor == SensorName(s)
      ensures Verdict(data, s) == Some(a.severity) && a == MakeAlert(s, a.severity, now)
    {
      SensorAtRank(s);
    }
  }

  /** `generate_alerts`: one `if`/`elif` per sensor appending to a local list. */
  method GenerateAlerts(data: Dict, now: int) returns (alerts: seq<EngineAlert>)
    requires HasAlertFields(data)
    ensures alerts == AlertsOf(data, now)
  {
    alerts := [];
    if data["air_quality"].value > 1200.0 {
      alerts := alerts + [EngineAlert(High, "Poor Air Quality", AirHighText, "MQ135", now)];
    } else if data["air_quality"].value > 900.0 {
      alerts := alerts + [EngineAlert(Medium, "Elevated Air Quality Levels", AirMediumText, "MQ135", now)];
    }
    assert alerts == AlertsUpTo(data, now, 1);
    if data["pm25"].value > 50.0 {
      alerts := alerts + [EngineAlert(High, "High PM2.5 Levels", PmHighText, "PMS5003", now)];
    } else if data["pm25"].value > 35.0 {
      alerts := alerts + [EngineAlert(Medium, "Moderate PM2.5 Levels", PmMediumText, "PMS5003", now)];
    }
    assert alerts == AlertsUpTo(data, now, 2);
    if data["noise"].value > 90.0 {
      alerts := alerts + [EngineAlert(High, "Excessive Noise Exposure", NoiseHighText, "Sound Sensor", now)];
    } else if data["noise"].value > 75.0 {
      alerts := alerts + [EngineAlert(Medium, "Elevated Noise Levels", NoiseMediumText, "Sound Sensor", now)];
    }
    assert alerts == AlertsUpTo(data, now, 3);
    if data["humidity"].value > 75.0 {
      alerts := alerts + [EngineAlert(Medium, "High Humidity", HumidityText, "BME680", now)];
    }
  }
}
