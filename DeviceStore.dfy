/**
  The in-memory device store of the main API: each device's latest reading, a bounded history
  of its readings, and an alert log that grows by alert id. Times are in microseconds.
*/
module DeviceStore {
  import opened Common
  import HealthEngine
  import AlertsEngine
  import RecommendationEngine
  import AqiEngine

  /** `MAX_HISTORY`: readings kept per device. */
  const MaxHistory: nat := 60
  /** `ONLINE_TIMEOUT`, 30 seconds, in microseconds. */
  const OnlineTimeout: int := 30_000_000

  const Offline := "Device offline"

  /** The body of a POST to `/api/ingest`; the device may omit its timestamp. */
  datatype SensorPayload = SensorPayload(
    deviceId: string, temperature: real, humidity: real, pm25: real, pm10: real,
    noise: real, light: real, timestamp: Option<int>)

  /** A stored reading: the payload with its timestamp filled in. */
  datatype Reading = Reading(
    deviceId: string, temperature: real, humidity: real, pm25: real, pm10: real,
    noise: real, light: real, timestamp: int)

  /** The reading `ingest` stores: the payload's own timestamp if it has one, otherwise `now`. */
  function ReadingOf(p: SensorPayload, now: int): (r: Reading)
    ensures p.timestamp.Some? ==> r.timestamp == p.timestamp.value
    ensures p.timestamp.None? ==> r.timestamp == now
    ensures r.deviceId == p.deviceId && r.temperature == p.temperature && r.humidity == p.humidity
    ensures r.pm25 == p.pm25 && r.pm10 == p.pm10 && r.noise == p.noise && r.light == p.light
  {
    Reading(p.deviceId, p.temperature, p.humidity, p.pm25, p.pm10, p.noise, p.light,
            if p.timestamp.Some? then p.timestamp.value else now)
  }

  /** A stored reading as the engines see it: its numeric fields by name. */
  function DictOf(r: Reading): (d: Dict)
    ensures HasNumber(d, "pm25") && HasNumber(d, "noise") && HasNumber(d, "temperature")
    ensures HasNumber(d, "humidity") && HasNumber(d, "pm10") && HasNumber(d, "light")
    ensures d["pm25"] == Some(r.pm25) && d["noise"] == Some(r.noise)
  {
    map["temperature" := Some(r.temperature), "humidity" := Some(r.humidity),
        "pm25" := Some(r.pm25), "pm10" := Some(r.pm10),
        "noise" := Some(r.noise), "light" := Some(r.light)]
  }

  /**
    The stored readings carry no `air_quality`, which the alerts engine indexes directly, so the
    engine cannot be applied to them: in the running service `/api/alerts` fails on such a reading.
  */
  lemma StoredReadingLacksAirQuality(r: Reading)
    ensures !AlertsEngine.HasAlertFields(DictOf(r))
    ensures RecommendationEngine.HasRecommendationFields(DictOf(r))
  {
    assert "air_quality" !in DictOf(r);
  }

  // ---------------------------------------------------------------------------
  // History
  // ---------------------------------------------------------------------------

  /** Trimming before appending keeps the same last `n` elements as trimming after. */
  lemma TakeLastAppend<T>(s: seq<T>, x: T, n: nat)
    requires n >= 1
    ensures TakeLast(TakeLast(s, n) + [x], n) == TakeLast(s + [x], n)
  {
    var t := TakeLast(s, n);
    if |s| > n {
      assert |t + [x]| == n + 1;
      assert (t + [x])[1..] == s[|s| - n + 1..] + [x];
      assert (s + [x])[|s| + 1 - n..] == s[|s| - n + 1..] + [x];
    }
  }

  /** After an append the history is at most 60 long and ends with the new reading. */
  lemma HistoryAppend(history: seq<Reading>, r: Reading)
    ensures var h := TakeLast(history + [r], MaxHistory);
      |h| <= MaxHistory && h != [] && h[|h| - 1] == r
      && (|history| < MaxHistory ==> h == history + [r])
  {
  }

  // ---------------------------------------------------------------------------
  // Alert log
  // ---------------------------------------------------------------------------

  /** An alert in a device's log, under the id the log is keyed by. */
  datatype LoggedAlert = LoggedAlert(id: string, alert: AlertsEngine.EngineAlert)

  function Ids(log: seq<LoggedAlert>): set<string> {
    set a | a in log :: a.id
  }

  /** The generated alerts whose id was not among `ids`, in generation order. */
  function Unseen(generated: seq<LoggedAlert>, ids: set<string>): (r: seq<LoggedAlert>)
    ensures |r| <= |generated|
  {
    if generated == [] then []
    else
      var last := generated[|generated| - 1];
      Unseen(generated[..|generated| - 1], ids) + (if last.id in ids then [] else [last])
  }

  /** An alert is appended exactly when it was generated and its id was not logged before. */
  lemma {:induction false} UnseenMembers(generated: seq<LoggedAlert>, ids: set<string>)
    ensures forall a :: a in Unseen(generated, ids) <==> a in generated && a.id !in ids
  {
    if generated != [] {
      var init := generated[..|generated| - 1];
      UnseenMembers(init, ids);
      assert generated == init + [generated[|generated| - 1]];
    }
  }

  /** What `get_alerts` leaves in the log: the old log, then the generated alerts with new ids. */
  function MergedLog(log: seq<LoggedAlert>, generated: seq<LoggedAlert>): seq<LoggedAlert> {
    log + Unseen(generated, Ids(log))
  }

  /**
    The old log is kept as a prefix; every appended alert was generated and has an id the old
    log did not have; and every generated alert ends up in the log.
  */
  lemma MergeProperties(log: seq<LoggedAlert>, generated: seq<LoggedAlert>)
    ensures MergedLog(log, generated)[..|log|] == log
    ensures forall a :: a in MergedLog(log, generated)[|log|..] <==> a in generated && a.id !in Ids(log)
    ensures forall a :: a in generated ==> a.id in Ids(MergedLog(log, generated))
  {
    var merged := MergedLog(log, generated);
    assert merged[|log|..] == Unseen(generated, Ids(log));
    UnseenMembers(generated, Ids(log));
    forall a | a in generated
      ensures a.id in Ids(merged)
    {
      if a.id !in Ids(log) {
        assert a in merged;
      } else {
        var b :| b in log && b.id == a.id;
        assert b in merged;
      }
    }
  }

  /** Merging the same generated alerts a second time adds nothing. */
  lemma MergeIdempotent(log: seq<LoggedAlert>, generated: seq<LoggedAlert>)
    ensures MergedLog(MergedLog(log, generated), generated) == MergedLog(log, generated)
  {
    var merged := MergedLog(log, generated);
    MergeProperties(log, generated);
    UnseenAllSeen(generated, Ids(merged));
    assert merged + [] == merged;
  }

  /** Nothing is appended when every generated id is already logged. */
  lemma {:induction false} UnseenAllSeen(generated: seq<LoggedAlert>, ids: set<string>)
    requires forall a :: a in generated ==> a.id in ids
    ensures Unseen(generated, ids) == []
  {
    if generated != [] {
      var init := generated[..|generated| - 1];
      assert forall a :: a in init ==> a in generated;
      UnseenAllSeen(init, ids);
      assert generated[|generated| - 1] in generated;
    }
  }

  // ---------------------------------------------------------------------------
  // Device list
  // ---------------------------------------------------------------------------

  /** One entry of `/api/devices`. */
  datatype DeviceSummary = DeviceSummary(
    deviceId: string, lastSeen: int, online: bool,
    temperature: real, pm25: real, noise: real, light: real)

  /** Online means seen strictly less than 30 seconds before `now`. */
  function SummaryOf(id: string, r: Reading, now: int): (s: DeviceSummary)
    ensures s.online <==> now - r.timestamp < OnlineTimeout
    ensures s.deviceId == id && s.lastSeen == r.timestamp
  {
    DeviceSummary(id, r.timestamp, now - r.timestamp < OnlineTimeout,
                  r.temperature, r.pm25, r.noise, r.light)
  }

  /** The summaries of the first `k` devices in insertion order. */
  function SummariesUpTo(order: seq<string>, state: map<string, Reading>, now: int, k: nat): (r: seq<DeviceSummary>)
    requires k <= |order|
    requires forall i :: 0 <= i < |order| ==> order[i] in state
    ensures |r| == k
    ensures forall i :: 0 <= i < k ==> r[i] == SummaryOf(order[i], state[order[i]], now)
  {
    if k == 0 then [] else SummariesUpTo(order, state, now, k - 1) + [SummaryOf(order[k - 1], state[order[k - 1]], now)]
  }

  /** The entries of a sequence, as a set. */
  function Elements(s: seq<string>): set<string> {
    set i | 0 <= i < |s| :: s[i]
  }

  /** Distinct entries of a sequence. */
  predicate Distinct(s: seq<string>) {
    forall i, j :: 0 <= i < j < |s| ==> s[i] != s[j]
  }

  // ---------------------------------------------------------------------------
  // The store
  // ---------------------------------------------------------------------------

  /** `order` lists each key of `state` exactly once. */
  predicate ListsKeys(order: seq<string>, state: map<string, Reading>) {
    Distinct(order) && Elements(order) == state.Keys
  }

  /** Each history is the last 60 of the device's arrivals. */
  predicate HistoriesAreTails(history: map<string, seq<Reading>>, arrivals: map<string, seq<Reading>>) {
    && history.Keys == arrivals.Keys
    && forall id :: id in history ==> history[id] == TakeLast(arrivals[id], MaxHistory)
  }

  /** Each latest reading is the device's last arrival. */
  predicate LatestIsLast(state: map<string, Reading>, arrivals: map<string, seq<Reading>>) {
    && state.Keys == arrivals.Keys
    && forall id :: id in arrivals ==> arrivals[id] != [] && state[id] == arrivals[id][|arrivals[id]| - 1]
  }

  /**
    The store's invariant: `order` lists each stored device once; every stored device has a
    history that is the last 60 of its arrivals, and its latest reading is its last arrival.
  */
  predicate Consistent(state: map<string, Reading>, history: map<string, seq<Reading>>,
                       arrivals: map<string, seq<Reading>>, order: seq<string>)
  {
    ListsKeys(order, state) && HistoriesAreTails(history, arrivals) && LatestIsLast(state, arrivals)
  }

  /** The listing after an ingest: unchanged for a known device, extended for a new one. */
  lemma IngestListsKeys(order: seq<string>, state: map<string, Reading>, r: Reading)
    requires ListsKeys(order, state)
    ensures ListsKeys(if r.deviceId in state then order else order + [r.deviceId], state[r.deviceId := r])
  {
    if r.deviceId !in state {
      var order' := order + [r.deviceId];
      assert Elements(order') == Elements(order) + {r.deviceId} by {
        assert forall i :: 0 <= i < |order| ==> order'[i] == order[i];
        assert order'[|order|] == r.deviceId;
      }
    }
  }

  /** The histories after an ingest are still the tails of the arrivals. */
  lemma IngestHistories(history: map<string, seq<Reading>>, arrivals: map<string, seq<Reading>>, r: Reading)
    requires HistoriesAreTails(history, arrivals)
    ensures var id := r.deviceId;
      HistoriesAreTails(history[id := TakeLast((if id in history then history[id] else []) + [r], MaxHistory)],
                        arrivals[id := (if id in arrivals then arrivals[id] else []) + [r]])
  {
    if r.deviceId in history {
      TakeLastAppend(arrivals[r.deviceId], r, MaxHistory);
    }
  }

  /** Ingesting one reading keeps the store consistent. */
  lemma IngestConsistent(state: map<string, Reading>, history: map<string, seq<Reading>>,
                         arrivals: map<string, seq<Reading>>, order: seq<string>, r: Reading,
                         state': map<string, Reading>, history': map<string, seq<Reading>>,
                         arrivals': map<string, seq<Reading>>, order': seq<string>)
    requires Consistent(state, history, arrivals, order)
    requires state' == state[r.deviceId := r]
    requires history' == history[r.deviceId :=
               TakeLast((if r.deviceId in history then history[r.deviceId] else []) + [r], MaxHistory)]
    requires arrivals' == arrivals[r.deviceId := (if r.deviceId in arrivals then arrivals[r.deviceId] else []) + [r]]
    requires order' == if r.deviceId in state then order else order + [r.deviceId]
    ensures Consistent(state', history', arrivals', order')
  {
    assert ListsKeys(order', state') by {
      IngestListsKeys(order, state, r);
    }
    assert HistoriesAreTails(history', arrivals') by {
      IngestHistories(history, arrivals, r);
    }
    assert LatestIsLast(state', arrivals') by {
      IngestLatest(state, arrivals, r);
    }
  }

  /** After an ingest the device's latest reading is its last arrival, and no other changes. */
  lemma IngestLatest(state: map<string, Reading>, arrivals: map<string, seq<Reading>>, r: Reading)
    requires LatestIsLast(state, arrivals)
    ensures LatestIsLast(state[r.deviceId := r],
                         arrivals[r.deviceId := (if r.deviceId in arrivals then arrivals[r.deviceId] else []) + [r]])
  {
  }

  /**
    `DEVICE_STATE`, `DEVICE_HISTORY` and `DEVICE_ALERTS`. `order` is the insertion order of
    `DEVICE_STATE`'s keys, which is the order Python iterates it in; `arrivals` is every
    reading ever ingested per device, which the bounded history is the tail of.
  */
  class Store {
    var state: map<string, Reading>
    var history: map<string, seq<Reading>>
    var alertLog: map<string, seq<LoggedAlert>>
    var order: seq<string>
    ghost var arrivals: map<string, seq<Reading>>

    ghost predicate Valid()
      reads this
    {
      Consistent(state, history, arrivals, order)
    }

    constructor ()
      ensures Valid()
      ensures state == map[] && history == map[] && alertLog == map[] && order == []
    {
      state := map[];
      history := map[];
      alertLog := map[];
      order := [];
      arrivals := map[];
    }

    /**
      `ingest`: stores the reading as the device's latest, appends it to the device's history
      and trims that to the last 60; no other device's entries change, and the alert log is
      untouched. `IngestConsistent` shows that the new state keeps the store's invariant.
    */
    method Ingest(payload: SensorPayload, now: int) returns (timestamp: int)
      modifies this
      ensures timestamp == ReadingOf(payload, now).timestamp
      ensures state == old(state)[payload.deviceId := ReadingOf(payload, now)]
      ensures history == old(history)[payload.deviceId :=
                TakeLast((if payload.deviceId in old(history) then old(history)[payload.deviceId] else []) + [ReadingOf(payload, now)], MaxHistory)]
      ensures arrivals == old(arrivals)[payload.deviceId :=
                (if payload.deviceId in old(arrivals) then old(arrivals)[payload.deviceId] else []) + [ReadingOf(payload, now)]]
      ensures order == if payload.deviceId in old(state) then old(order) else old(order) + [payload.deviceId]
      ensures alertLog == old(alertLog)
    {
      var id := payload.deviceId;
      timestamp := if payload.timestamp.Some? then payload.timestamp.value else now;
      var data := Reading(id, payload.temperature, payload.humidity, payload.pm25, payload.pm10,
                          payload.noise, payload.light, timestamp);
      var order' := if id in state then order else order + [id];
      var state' := state[id := data];
      var appended := (if id in history then history[id] else []) + [data];
      var history' := history[id := TakeLast(appended, MaxHistory)];
      ghost var arrivals' := arrivals[id := (if id in arrivals then arrivals[id] else []) + [data]];
      order, state, history := order', state', history';
      arrivals := arrivals';
    }

    /** `get_latest`: the latest reading, or 404. */
    method GetLatest(deviceId: string) returns (r: Result<Reading>)
      ensures deviceId in state ==> r == Ok(state[deviceId])
      ensures deviceId !in state ==> r == Err(404, Offline)
    {
      if deviceId !in state {
        return Err(404, Offline);
      }
      return Ok(state[deviceId]);
    }

    /** `get_history`: the stored history, empty for an unknown device. */
    method GetHistory(deviceId: string) returns (h: seq<Reading>)
      ensures deviceId in history ==> h == history[deviceId]
      ensures deviceId !in history ==> h == []
    {
      h := if deviceId in history then history[deviceId] else [];
    }

    /** `get_health_score`: the health engine on the latest reading, or 404. */
    method GetHealthScore(deviceId: string) returns (r: Result<HealthEngine.HealthReport>)
      ensures deviceId in state ==> r == Ok(HealthEngine.HealthReportOf(DictOf(state[deviceId])))
      ensures deviceId !in state ==> r == Err(404, Offline)
    {
      if deviceId !in state {
        return Err(404, Offline);
      }
      var report := HealthEngine.CalculateHealthScore(DictOf(state[deviceId]));
      return Ok(report);
    }

    /** `recommendations`: the recommendation engine on the latest reading, or 404. */
    method GetRecommendations(deviceId: string) returns (r: Result<seq<RecommendationEngine.EngineRecommendation>>)
      ensures deviceId in state ==> r == Ok(RecommendationEngine.RecommendationsOf(DictOf(state[deviceId])))
      ensures deviceId !in state ==> r == Err(404, Offline)
    {
      if deviceId !in state {
        return Err(404, Offline);
      }
      var recs := RecommendationEngine.GenerateRecommendations(DictOf(state[deviceId]));
      return Ok(recs);
    }

    /** `get_aqi`: the particulate AQI of the latest reading, or 404. */
    method GetAqi(deviceId: string) returns (r: Result<Option<AqiEngine.AqiReport>>)
      ensures deviceId in state ==> (AqiEngine.TablesValid();
        r == Ok(AqiEngine.PmAqiOf(AqiEngine.SubIndexOf(state[deviceId].pm25, AqiEngine.Pm25Breakpoints),
                                  AqiEngine.SubIndexOf(state[deviceId].pm10, AqiEngine.Pm10Breakpoints))))
      ensures deviceId !in state ==> r == Err(404, Offline)
    {
      if deviceId !in state {
        return Err(404, Offline);
      }
      var data := state[deviceId];
      var aqi := AqiEngine.CalculatePmAqi(data.pm25, data.pm10);
      return Ok(aqi);
    }

    /**
      `get_alerts`, given the alerts generated for the latest reading: appends those whose id the
      device's log did not already hold and returns the log; 404 and no change for an unknown device.
    */
    method GetAlerts(deviceId: string, generated: seq<LoggedAlert>) returns (r: Result<seq<LoggedAlert>>)
      modifies this
      ensures deviceId !in old(state) ==> r == Err(404, Offline) && alertLog == old(alertLog)
      ensures deviceId in old(state) ==>
        var before := if deviceId in old(alertLog) then old(alertLog)[deviceId] else [];
        alertLog == old(alertLog)[deviceId := MergedLog(before, generated)] && r == Ok(alertLog[deviceId])
      ensures state == old(state) && history == old(history) && order == old(order)
      ensures arrivals == old(arrivals)
    {
      if deviceId !in state {
        return Err(404, Offline);
      }
      if deviceId !in alertLog {
        alertLog := alertLog[deviceId := []];
      }
      var log := alertLog[deviceId];
      var existingIds := Ids(log);
      ghost var before := log;
      assert generated[..0] == [];
      for i := 0 to |generated|
        invariant log == before + Unseen(generated[..i], existingIds)
      {
        var alert := generated[i];
        assert generated[..i + 1][..i] == generated[..i];
        if alert.id !in existingIds {
          log := log + [alert];
        }
      }
      assert generated[..|generated|] == generated;
      alertLog := alertLog[deviceId := log];
      return Ok(log);
    }

    /** `list_devices`: one summary per stored device, in insertion order. */
    method ListDevices(now: int) returns (devices: seq<DeviceSummary>)
      requires Valid()
      ensures devices == SummariesUpTo(order, state, now, |order|)
      ensures |devices| == |state|
    {
      forall i | 0 <= i < |order|
        ensures order[i] in state
      {
        assert order[i] in Elements(order);
      }
      devices := [];
      for i := 0 to |order|
        invariant devices == SummariesUpTo(order, state, now, i)
      {
        var deviceId := order[i];
        var data := state[deviceId];
        var lastSeen := data.timestamp;
        var online := now - lastSeen < OnlineTimeout;
        devices := devices + [DeviceSummary(deviceId, lastSeen, online, data.temperature, data.pm25, data.noise, data.light)];
      }
      DistinctCount(order, state);
    }
  }

  /** An ingest on a consistent store leaves it consistent. */
  method IngestKeepsValid(store: Store, payload: SensorPayload, now: int) returns (timestamp: int)
    requires store.Valid()
    modifies store
    ensures store.Valid()
    ensures store.state == old(store.state)[payload.deviceId := ReadingOf(payload, now)]
  {
    ghost var s0, h0, a0, o0 := store.state, store.history, store.arrivals, store.order;
    timestamp := store.Ingest(payload, now);
    IngestConsistent(s0, h0, a0, o0, ReadingOf(payload, now), store.state, store.history, store.arrivals, store.order);
  }

  /** A duplicate-free listing of exactly a map's keys is as long as the map. */
  lemma DistinctCount(order: seq<string>, state: map<string, Reading>)
    requires Distinct(order) && Elements(order) == state.Keys
    ensures |order| == |state|
  {
    DistinctSetSize(order);
  }

  lemma {:induction false} DistinctSetSize(s: seq<string>)
    requires Distinct(s)
    ensures |Elements(s)| == |s|
  {
    if s != [] {
      var init := s[..|s| - 1];
      DistinctSetSize(init);
      assert Elements(s) == Elements(init) + {s[|s| - 1]};
      assert s[|s| - 1] !in Elements(init);
    }
  }
}
