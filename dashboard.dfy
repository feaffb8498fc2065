/** `DashboardWindow` without its widgets: the supervisor's fields, the latest
    readings, the selected profile, the verdict the status panel shows and the
    chart's history, with the handlers that update them. Each handler's new
    state is stated through the pure transitions of `Supervisor`, `Status` and
    `History`. */
module Dashboard {
  import opened Wrappers
  import opened Profiles
  import opened Status
  import opened Link
  import opened History
  import Supervisor

  /** What the status panel shows for a reading pair: the profile's name, the
      tier and the stability score. */
  datatype Verdict = Verdict(profileName: string, tier: Tier, stability: int)

  /** The evaluation of `_update_status`: nothing for an unknown profile
      identifier; otherwise a tier that is CRITICAL exactly outside the
      envelope and OK exactly a full margin inside it, and a score in 0..100. */
  function Evaluate(key: string, temp: real, hum: real): (v: Option<Verdict>)
    ensures v.None? <==> key !in SelectorKeys
    ensures v.Some? ==> v.value.profileName == Lookup(key).value.name
    ensures v.Some? ==> (v.value.tier == Critical <==> !InEnvelope(Lookup(key).value, temp, hum))
    ensures v.Some? ==> (v.value.tier == Ok <==> InEnvelope(Lookup(key).value, temp, hum) && ClearOfEdges(Lookup(key).value, temp, hum))
    ensures v.Some? ==> 0 <= v.value.stability <= 100
  {
    match Lookup(key)
    case None => None
    case Some(p) => Some(Verdict(p.name, Classify(p, temp, hum), ComputeStability(key, temp, hum)))
  }

  /** The verdict after `_update_status`: replaced by the new evaluation, or
      left as it was when the identifier is unknown. */
  function Refreshed(shown: Option<Verdict>, key: string, temp: real, hum: real): Option<Verdict> {
    match Evaluate(key, temp, hum)
    case None => shown
    case Some(v) => Some(v)
  }

  /** The supervisor event a link signal stands for, if any. */
  function SupervisorEvent(sig: Signal, now: real): Option<Supervisor.Event> {
    match sig
    case Connected => Some(Supervisor.LinkConnected)
    case Disconnected => Some(Supervisor.LinkDisconnected)
    case Error(m) => Some(Supervisor.LinkFailed(m))
    case DataReceived => Some(Supervisor.DataArrived(now))
    case _ => None
  }

  class DashboardWindow {
    var reconnectAttempts: nat
    var reconnectTimerActive: bool
    var lastDataTime: Option<real>
    var status: Supervisor.LinkStatus
    var currentTemp: Option<real>
    var currentHum: Option<real>
    var profileKey: string
    var verdict: Option<Verdict>
    const chart: ChartHistory

    /** The supervisor's view of this window. */
    function Supervision(): Supervisor.Supervision
      reads this
    {
      Supervisor.Supervision(reconnectAttempts, reconnectTimerActive, lastDataTime, status)
    }

    ghost predicate Valid()
      reads this, chart
    {
      chart.Valid()
    }

    /** The window as built, with the reconnect timer already created (idle):
        the connection is attempted only after this, see `Startup`. */
    constructor ()
      ensures Valid() && fresh(chart)
      ensures Supervision() == Supervisor.Initial
      ensures currentTemp == None && currentHum == None && verdict == None
      ensures profileKey == SelectorKeys[0]
      ensures chart.times == [] && chart.temps == [] && chart.hums == []
    {
      currentTemp, currentHum := None, None;
      profileKey := SelectorKeys[0];
      verdict := None;
      lastDataTime := None;
      status := Supervisor.Connecting;
      reconnectTimerActive := false;
      reconnectAttempts := 0;
      chart := new ChartHistory();
    }

    /** `_on_mqtt_connected`. */
    method OnMqttConnected()
      modifies this`reconnectAttempts, this`reconnectTimerActive, this`status
      ensures Supervision() == Supervisor.OnConnected(old(Supervision())).next
    {
      reconnectAttempts := 0;
      status := Supervisor.AwaitingDevice;
      reconnectTimerActive := false;
    }

    /** `_on_mqtt_disconnected`; reports whether the timer was started. */
    method OnMqttDisconnected() returns (timerStarted: bool)
      modifies this`reconnectTimerActive, this`status
      ensures Supervision() == Supervisor.OnDisconnected(old(Supervision())).next
      ensures timerStarted == Supervisor.OnDisconnected(old(Supervision())).timerStarted
    {
      status := Supervisor.Disconnected;
      timerStarted := !reconnectTimerActive;
      if !reconnectTimerActive {
        reconnectTimerActive := true;
      }
    }

    /** `_on_mqtt_error`; reports whether the timer was started. */
    method OnMqttError(message: string) returns (timerStarted: bool)
      modifies this`reconnectTimerActive, this`status
      ensures Supervision() == Supervisor.OnError(old(Supervision()), message).next
      ensures timerStarted == Supervisor.OnError(old(Supervision()), message).timerStarted
    {
      status := Supervisor.LinkError(message);
      timerStarted := !reconnectTimerActive;
      if !reconnectTimerActive {
        reconnectTimerActive := true;
      }
    }

    /** `_check_mqtt_connection` at time `now`; `linkUp` is the link's
        `check_connection()`. */
    method CheckMqttConnection(now: real, linkUp: bool) returns (timerStarted: bool)
      modifies this`reconnectTimerActive, this`status
      ensures Supervision() == Supervisor.OnCheck(old(Supervision()), now, linkUp).next
      ensures timerStarted == Supervisor.OnCheck(old(Supervision()), now, linkUp).timerStarted
    {
      timerStarted := false;
      if !linkUp && !reconnectTimerActive {
        timerStarted := OnMqttDisconnected();
        return;
      }
      if linkUp && lastDataTime.Some? {
        var elapsed := now - lastDataTime.value;
        if elapsed > Supervisor.DataTimeout {
          status := Supervisor.DeviceOffline(elapsed.Floor);
        }
      } else if linkUp && lastDataTime.None? {
        status := Supervisor.AwaitingDevice;
      }
    }

    /** `_on_data_received` at time `now`. */
    method OnDataReceived(now: real)
      modifies this`lastDataTime, this`status
      ensures Supervision() == Supervisor.OnData(old(Supervision()), now).next
    {
      lastDataTime := Some(now);
      status := Supervisor.DeviceOnline;
    }

    /** `_try_reconnect`; reports whether `connect()` was called. */
    method TryReconnect() returns (connectCalled: bool)
      modifies this`reconnectAttempts, this`reconnectTimerActive, this`status
      ensures Supervision() == Supervisor.OnTimer(old(Supervision())).next
      ensures connectCalled == Supervisor.OnTimer(old(Supervision())).connectCalled
      ensures connectCalled <==> reconnectAttempts <= Supervisor.MaxReconnectAttempts
    {
      reconnectAttempts := reconnectAttempts + 1;
      if reconnectAttempts > Supervisor.MaxReconnectAttempts {
        status := Supervisor.ReconnectFailed;
        reconnectTimerActive := false;
        return false;
      }
      status := Supervisor.Reconnecting(reconnectAttempts);
      connectCalled := true;
    }

    /** `_update_status`: shows the evaluation of the pair under the selected
        profile; an unknown identifier leaves everything as it was. */
    method UpdateStatus(temp: real, hum: real)
      modifies this`verdict
      ensures verdict == Refreshed(old(verdict), profileKey, temp, hum)
    {
      var profile := Lookup(profileKey);
      if profile.None? {
        return;
      }
      var p := profile.value;
      var tier := Classify(p, temp, hum);
      var stability := ComputeStability(profileKey, temp, hum);
      verdict := Some(Verdict(p.name, tier, stability));
    }

    /** `_update_chart_and_status`: only once both readings are known is a
        point recorded and the status refreshed. */
    method UpdateChartAndStatus(now: real)
      requires Valid()
      modifies this`verdict, chart
      ensures Valid()
      ensures currentTemp.Some? && currentHum.Some? ==>
        && chart.times == Push(old(chart.times), now)
        && chart.temps == Push(old(chart.temps), currentTemp.value)
        && chart.hums == Push(old(chart.hums), currentHum.value)
        && verdict == Refreshed(old(verdict), profileKey, currentTemp.value, currentHum.value)
      ensures !(currentTemp.Some? && currentHum.Some?) ==>
        && chart.times == old(chart.times) && chart.temps == old(chart.temps) && chart.hums == old(chart.hums)
        && verdict == old(verdict)
    {
      if currentTemp.Some? && currentHum.Some? {
        chart.AddPoint(now, currentTemp.value, currentHum.value);
        UpdateStatus(currentTemp.value, currentHum.value);
      }
    }

    /** `_on_temperature` at time `now`. */
    method OnTemperature(value: real, now: real)
      requires Valid()
      modifies this`currentTemp, this`verdict, chart
      ensures Valid()
      ensures currentTemp == Some(value)
      ensures currentHum.Some? ==>
        && chart.times == Push(old(chart.times), now)
        && chart.temps == Push(old(chart.temps), value)
        && chart.hums == Push(old(chart.hums), currentHum.value)
        && verdict == Refreshed(old(verdict), profileKey, value, currentHum.value)
      ensures currentHum.None? ==>
        && chart.times == old(chart.times) && chart.temps == old(chart.temps) && chart.hums == old(chart.hums)
        && verdict == old(verdict)
    {
      currentTemp := Some(value);
      UpdateChartAndStatus(now);
    }

    /** `_on_humidity` at time `now`. */
    method OnHumidity(value: real, now: real)
      requires Valid()
      modifies this`currentHum, this`verdict, chart
      ensures Valid()
      ensures currentHum == Some(value)
      ensures currentTemp.Some? ==>
        && chart.times == Push(old(chart.times), now)
        && chart.temps == Push(old(chart.temps), currentTemp.value)
        && chart.hums == Push(old(chart.hums), value)
        && verdict == Refreshed(old(verdict), profileKey, currentTemp.value, value)
      ensures currentTemp.None? ==>
        && chart.times == old(chart.times) && chart.temps == old(chart.temps) && chart.hums == old(chart.hums)
        && verdict == old(verdict)
    {
      currentHum := Some(value);
      UpdateChartAndStatus(now);
    }

    /** `_on_profile_changed` after the selector moved to `key`: the status is
        re-evaluated only when both readings are known, and no point is ever
        recorded. */
    method OnProfileChanged(key: string)
      modifies this`profileKey, this`verdict
      ensures profileKey == key
      ensures currentTemp.Some? && currentHum.Some? ==>
        verdict == Refreshed(old(verdict), key, currentTemp.value, currentHum.value)
      ensures !(currentTemp.Some? && currentHum.Some?) ==> verdict == old(verdict)
    {
      profileKey := key;
      if currentTemp.Some? && currentHum.Some? {
        UpdateStatus(currentTemp.value, currentHum.value);
      }
    }

    /** The signal connections of the window: each link signal reaches its
        handler; the connection-status signal has no handler. */
    method Deliver(sig: Signal, now: real)
      requires Valid()
      modifies this, chart
      ensures Valid() && profileKey == old(profileKey)
      ensures SupervisorEvent(sig, now).Some? ==>
        && Supervision() == Supervisor.Step(old(Supervision()), SupervisorEvent(sig, now).value).next
        && currentTemp == old(currentTemp) && currentHum == old(currentHum) && verdict == old(verdict)
        && chart.times == old(chart.times) && chart.temps == old(chart.temps) && chart.hums == old(chart.hums)
      ensures sig.TemperatureReceived? || sig.HumidityReceived? ==> Supervision() == old(Supervision())
      ensures sig.TemperatureReceived? ==> currentTemp == Some(sig.celsius) && currentHum == old(currentHum)
      ensures sig.HumidityReceived? ==> currentHum == Some(sig.percent) && currentTemp == old(currentTemp)
      ensures sig.TemperatureReceived? && old(currentHum).Some? ==>
        && chart.times == Push(old(chart.times), now)
        && chart.temps == Push(old(chart.temps), sig.celsius)
        && chart.hums == Push(old(chart.hums), old(currentHum).value)
        && verdict == Refreshed(old(verdict), profileKey, sig.celsius, old(currentHum).value)
      ensures sig.HumidityReceived? && old(currentTemp).Some? ==>
        && chart.times == Push(old(chart.times), now)
        && chart.temps == Push(old(chart.temps), old(currentTemp).value)
        && chart.hums == Push(old(chart.hums), sig.percent)
        && verdict == Refreshed(old(verdict), profileKey, old(currentTemp).value, sig.percent)
      ensures (sig.TemperatureReceived? && old(currentHum).None?) || (sig.HumidityReceived? && old(currentTemp).None?) ==>
        && chart.times == old(chart.times) && chart.temps == old(chart.temps) && chart.hums == old(chart.hums)
        && verdict == old(verdict)
      ensures sig.ConnectionStatus? ==>
        && Supervision() == old(Supervision())
        && currentTemp == old(currentTemp) && currentHum == old(currentHum) && verdict == old(verdict)
        && chart.times == old(chart.times) && chart.temps == old(chart.temps) && chart.hums == old(chart.hums)
    {
      match sig
      case Connected => OnMqttConnected();
      case Disconnected => var _ := OnMqttDisconnected();
      case Error(m) => var _ := OnMqttError(m);
      case TemperatureReceived(v) => OnTemperature(v, now);
      case HumidityReceived(v) => OnHumidity(v, now);
      case DataReceived => OnDataReceived(now);
      case ConnectionStatus(_) =>
    }
  }

  /** The window comes up and makes its first connection attempt, with the
      reconnect timer created before that attempt: a `connect()` that raises
      (`raised` carries the exception's text) is handled as a link error and
      arms the timer. */
  method Startup(raised: Option<string>, now: real) returns (w: DashboardWindow, client: MqttClient)
    ensures fresh(w) && fresh(w.chart) && fresh(client) && w.Valid()
    ensures w.Supervision() == StartupReordered(raised)
    ensures w.currentTemp == None && w.currentHum == None && w.verdict == None
    ensures w.profileKey == SelectorKeys[0]
    ensures w.chart.times == [] && w.chart.temps == [] && w.chart.hums == []
    ensures client.isConnected == false
  {
    w := new DashboardWindow();
    client := new MqttClient();
    var emitted := client.Connect(raised);
    if emitted != [] {
      w.Deliver(emitted[0], now);
      w.Deliver(emitted[1], now);
    }
  }

  /** The supervisor state once the window is up, when the reconnect timer
      exists before the first attempt. */
  function StartupReordered(raised: Option<string>): (s: Supervisor.Supervision)
    ensures raised.Some? ==> s.timerActive && s.status == Supervisor.LinkError("Erro de conexão: " + raised.value)
    ensures raised.None? ==> s == Supervisor.Initial
    ensures s.attempts == 0
  {
    match raised
    case None => Supervisor.Initial
    case Some(text) => Supervisor.OnError(Supervisor.Initial, "Erro de conexão: " + text).next
  }

  /** The window's attributes while its constructor runs: the reconnect timer
      is absent until it is assigned. */
  datatype Building = Building(timer: Option<bool>, status: Supervisor.LinkStatus)

  datatype StartupOutcome = Up(s: Supervisor.Supervision) | MissingAttribute(name: string)

  /** `_on_mqtt_error` on a window under construction: it reads the timer, so
      it fails when the timer has not been assigned yet. */
  function ErrorWhileBuilding(b: Building, message: string): Option<Building> {
    match b.timer
    case None => None
    case Some(active) => Some(Building(Some(true), Supervisor.LinkError(message)))
  }

  /** The constructor in its written order: `connect()` first, an error
      signal from a raising `connect()` delivered at once (same thread), and
      only then the reconnect timer and the counter assigned. */
  function StartupAsWritten(raised: Option<string>): (r: StartupOutcome)
    ensures r.MissingAttribute? <==> raised.Some?
    ensures raised.None? ==> r == Up(Supervisor.Initial)
  {
    var b := Building(None, Supervisor.Connecting);
    var afterConnect :=
      match raised
      case None => Some(b)
      case Some(text) => ErrorWhileBuilding(b, "Erro de conexão: " + text);
    match afterConnect
    case None => MissingAttribute("reconnect_timer")
    case Some(b') => Up(Supervisor.Supervision(0, false, None, b'.status))
  }

  /** As written, a first `connect()` that raises never reaches the reconnect
      path: its error handler fails on the missing timer. Without a raise the
      written order and the reordered one agree. */
  lemma StartupRaiseFaults(raised: Option<string>)
    ensures raised.Some? ==> StartupAsWritten(raised) == MissingAttribute("reconnect_timer")
    ensures raised.Some? ==> StartupReordered(raised).timerActive
    ensures raised.None? ==> StartupAsWritten(raised) == Up(StartupReordered(raised))
  {
  }
}
