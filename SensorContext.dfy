/**
  The dashboard's sensor context: the state the React provider keeps and the transitions that
  change it. The random reading generators and the clock are parameters of `RefreshData`.
*/
module SensorContext {
  import opened Common
  import opened MockData

  /** One alert after `acknowledgeAlert(id)`: marked acknowledged when its id matches. */
  function AcknowledgeOne(alert: Alert, id: string): Alert {
    if alert.id == id then alert.(acknowledged := true) else alert
  }

  /** The alert list after `acknowledgeAlert(id)`: the list mapped with `AcknowledgeOne`. */
  function Acknowledge(alerts: seq<Alert>, id: string): (r: seq<Alert>)
    ensures |r| == |alerts|
    ensures forall i :: 0 <= i < |r| ==> r[i] == AcknowledgeOne(alerts[i], id)
  {
    if alerts == [] then [] else [AcknowledgeOne(alerts[0], id)] + Acknowledge(alerts[1..], id)
  }

  /** Matching alerts become acknowledged; every other alert is left exactly as it was. */
  lemma AcknowledgeEffect(alerts: seq<Alert>, id: string, i: nat)
    requires i < |alerts|
    ensures alerts[i].id == id ==> Acknowledge(alerts, id)[i] == alerts[i].(acknowledged := true)
    ensures alerts[i].id != id ==> Acknowledge(alerts, id)[i] == alerts[i]
    ensures Acknowledge(alerts, id)[i].id == alerts[i].id
    ensures Acknowledge(alerts, id)[i].acknowledged <==> alerts[i].acknowledged || alerts[i].id == id
  {
  }

  /** Acknowledging the same id twice is acknowledging it once. */
  lemma AcknowledgeIdempotent(alerts: seq<Alert>, id: string)
    ensures Acknowledge(Acknowledge(alerts, id), id) == Acknowledge(alerts, id)
  {
  }

  /** An id that no alert carries leaves the list unchanged. */
  lemma AcknowledgeUnknownId(alerts: seq<Alert>, id: string)
    requires forall i :: 0 <= i < |alerts| ==> alerts[i].id != id
    ensures Acknowledge(alerts, id) == alerts
  {
  }

  /** The unread-alert badge of the header: the number of alerts not yet acknowledged. */
  function UnreadCount(alerts: seq<Alert>): (n: nat)
    ensures n <= |alerts|
  {
    if alerts == [] then 0
    else (if alerts[0].acknowledged then 0 else 1) + UnreadCount(alerts[1..])
  }

  /** The badge shows all alerts exactly when none is acknowledged, and none exactly when all are. */
  lemma {:induction false} UnreadCountBounds(alerts: seq<Alert>)
    ensures UnreadCount(alerts) == |alerts| <==> forall i :: 0 <= i < |alerts| ==> !alerts[i].acknowledged
    ensures UnreadCount(alerts) == 0 <==> forall i :: 0 <= i < |alerts| ==> alerts[i].acknowledged
  {
    if alerts != [] {
      UnreadCountBounds(alerts[1..]);
      assert forall i :: 1 <= i < |alerts| ==> alerts[i] == alerts[1..][i - 1];
    }
  }

  /**
    Acknowledging never raises the badge, and lowers it exactly by the unread alerts that carry
    the id: it drops whenever such an alert exists.
  */
  lemma {:induction false} AcknowledgeLowersUnread(alerts: seq<Alert>, id: string)
    ensures UnreadCount(Acknowledge(alerts, id)) <= UnreadCount(alerts)
    ensures UnreadCount(Acknowledge(alerts, id)) < UnreadCount(alerts) <==>
              exists i :: 0 <= i < |alerts| && alerts[i].id == id && !alerts[i].acknowledged
  {
    if alerts != [] {
      AcknowledgeLowersUnread(alerts[1..], id);
      assert Acknowledge(alerts, id)[1..] == Acknowledge(alerts[1..], id);
      if exists i :: 0 <= i < |alerts| && alerts[i].id == id && !alerts[i].acknowledged {
        var i :| 0 <= i < |alerts| && alerts[i].id == id && !alerts[i].acknowledged;
        if i > 0 {
          assert alerts[1..][i - 1] == alerts[i];
        }
      }
    }
  }

  /** The state of the sensor provider; `lastUpdated` is a time in milliseconds. */
  class SensorProvider {
    var sensorData: Option<SensorData>
    var healthScore: Option<HealthScore>
    var devices: seq<Device>
    var alerts: seq<Alert>
    var recommendations: seq<Recommendation>
    var isDemoMode: bool
    var lastUpdated: Option<int>
    var selectedDevice: Option<Device>

    /** The initial state of the provider, before the first refresh. */
    constructor ()
      ensures sensorData == None && healthScore == None && lastUpdated == None
      ensures devices == [] && alerts == [] && recommendations == []
      ensures !isDemoMode && selectedDevice == None
    {
      sensorData := None;
      healthScore := None;
      devices := [];
      alerts := [];
      recommendations := [];
      isDemoMode := false;
      lastUpdated := None;
      selectedDevice := None;
    }

    /**
      `refreshData`: takes the demo reading in demo mode and the normal one otherwise, and
      derives score, recommendations and alerts from that one reading, stamped at `now`.
    */
    method RefreshData(normal: SensorData, demo: SensorData, now: int)
      modifies this
      ensures sensorData == Some(if isDemoMode then demo else normal)
      ensures healthScore == Some(HealthScoreOf(sensorData.value))
      ensures recommendations == RecommendationsOf(sensorData.value)
      ensures alerts == AlertsOf(sensorData.value, now)
      ensures lastUpdated == Some(now)
      ensures isDemoMode == old(isDemoMode) && devices == old(devices)
      ensures selectedDevice == old(selectedDevice)
    {
      var newData := if isDemoMode then demo else normal;
      sensorData := Some(newData);
      var score := CalculateHealthScore(newData);
      healthScore := Some(score);
      recommendations := GenerateRecommendations(newData);
      alerts := GenerateAlerts(newData, now);
      lastUpdated := Some(now);
    }

    /** `toggleDemoMode`: flips the mode and nothing else. */
    method ToggleDemoMode()
      modifies this
      ensures isDemoMode == !old(isDemoMode)
      ensures sensorData == old(sensorData) && healthScore == old(healthScore)
      ensures alerts == old(alerts) && recommendations == old(recommendations)
      ensures devices == old(devices) && lastUpdated == old(lastUpdated)
      ensures selectedDevice == old(selectedDevice)
    {
      isDemoMode := !isDemoMode;
    }

    /** `selectDevice`: records the selection, possibly none, and nothing else. */
    method SelectDevice(device: Option<Device>)
      modifies this
      ensures selectedDevice == device
      ensures sensorData == old(sensorData) && healthScore == old(healthScore)
      ensures alerts == old(alerts) && recommendations == old(recommendations)
      ensures devices == old(devices) && lastUpdated == old(lastUpdated)
      ensures isDemoMode == old(isDemoMode)
    {
      selectedDevice := device;
    }

    /** `acknowledgeAlert`: acknowledges the alerts carrying `id`; nothing else changes. */
    method AcknowledgeAlert(id: string)
      modifies this
      ensures alerts == Acknowledge(old(alerts), id)
      ensures sensorData == old(sensorData) && healthScore == old(healthScore)
      ensures recommendations == old(recommendations) && devices == old(devices)
      ensures lastUpdated == old(lastUpdated) && isDemoMode == old(isDemoMode)
      ensures selectedDevice == old(selectedDevice)
    {
      alerts := Acknowledge(alerts, id);
    }
  }

  /** Toggling the demo mode twice restores it, and every other field. */
  method ToggleTwice(p: SensorProvider)
    modifies p
    ensures p.isDemoMode == old(p.isDemoMode)
    ensures p.sensorData == old(p.sensorData) && p.alerts == old(p.alerts)
  {
    p.ToggleDemoMode();
    p.ToggleDemoMode();
  }

  /** The alerts a refresh installs are all unread: the badge counts every one of them. */
  lemma RefreshLeavesAllUnread(data: SensorData, now: int)
    ensures UnreadCount(AlertsOf(data, now)) == |AlertsOf(data, now)|
  {
    AlertsProperties(data, now);
    UnreadCountBounds(AlertsOf(data, now));
  }
}
