/** The connection and liveness supervisor of `DashboardWindow`: the reconnect
    counter, the reconnect timer's active flag, the time data was last seen and
    the status indicator, with one pure transition per handler. The window's
    methods are specified by these transitions; the properties of the handlers
    and of whole event sequences are proved here. Time is seconds, as a real. */
module Supervisor {
  import opened Wrappers

  /** `max_reconnect_attempts`. */
  const MaxReconnectAttempts: nat := 10
  /** `data_timeout`, in seconds. */
  const DataTimeout: real := 10.0

  /** What the status indicator shows. */
  datatype LinkStatus =
    | Connecting                 // the text the window opens with
    | AwaitingDevice             // connected, no data seen (or seen before this connection)
    | Disconnected
    | LinkError(message: string) // the error text is the indicator's tooltip
    | DeviceOffline(seconds: int)// connected, data older than the timeout
    | DeviceOnline
    | Reconnecting(attempt: nat)
    | ReconnectFailed

  datatype Supervision = Supervision(attempts: nat, timerActive: bool, lastDataTime: Option<real>, status: LinkStatus)

  /** A handler's result: the new state and the calls it made on the link
      (`connect()`) and on the reconnect timer (`start()`). */
  datatype Transition = Transition(next: Supervision, connectCalled: bool, timerStarted: bool)

  /** The state when the window has just been built. */
  const Initial: Supervision := Supervision(0, false, None, Connecting)

  /** `_on_mqtt_connected`: the counter is reset and the timer stopped. */
  function OnConnected(s: Supervision): (t: Transition)
    ensures t.next.attempts == 0 && !t.next.timerActive && t.next.status == AwaitingDevice
    ensures t.next.lastDataTime == s.lastDataTime
    ensures !t.connectCalled && !t.timerStarted
  {
    Transition(s.(attempts := 0, timerActive := false, status := AwaitingDevice), false, false)
  }

  /** Starts the reconnect timer unless it is already running; a running timer
      is left as it is (not restarted). */
  function ArmTimer(s: Supervision, status: LinkStatus): (t: Transition)
    ensures t.next == s.(timerActive := true, status := status)
    ensures t.timerStarted <==> !s.timerActive
    ensures !t.connectCalled
  {
    if !s.timerActive then Transition(s.(timerActive := true, status := status), false, true)
    else Transition(s.(status := status), false, false)
  }

  /** `_on_mqtt_disconnected`. */
  function OnDisconnected(s: Supervision): (t: Transition)
    ensures t.next.timerActive && t.next.status == Disconnected
    ensures t.timerStarted <==> !s.timerActive
    ensures t.next.attempts == s.attempts && t.next.lastDataTime == s.lastDataTime
    ensures !t.connectCalled
  {
    ArmTimer(s, Disconnected)
  }

  /** `_on_mqtt_error`. */
  function OnError(s: Supervision, message: string): (t: Transition)
    ensures t.next.timerActive && t.next.status == LinkError(message)
    ensures t.timerStarted <==> !s.timerActive
    ensures t.next.attempts == s.attempts && t.next.lastDataTime == s.lastDataTime
    ensures !t.connectCalled
  {
    ArmTimer(s, LinkError(message))
  }

  /** `_check_mqtt_connection` at time `now`, `linkUp` being the link's own
      check. Down with the timer idle: handled as a disconnection. Down with
      the timer running: nothing. Up and never fed: awaiting. Up and fed more
      than the timeout ago (strictly): offline, with the whole seconds elapsed.
      Up and fed within the timeout: nothing. */
  function OnCheck(s: Supervision, now: real, linkUp: bool): (t: Transition)
    ensures !t.connectCalled
    ensures t.next.attempts == s.attempts && t.next.lastDataTime == s.lastDataTime
    ensures t.timerStarted <==> !linkUp && !s.timerActive
  {
    if !linkUp && !s.timerActive then
      OnDisconnected(s)
    else if linkUp && s.lastDataTime.Some? then
      var elapsed := now - s.lastDataTime.value;
      if elapsed > DataTimeout then Transition(s.(status := DeviceOffline(elapsed.Floor)), false, false)
      else Transition(s, false, false)
    else if linkUp then
      Transition(s.(status := AwaitingDevice), false, false)
    else
      Transition(s, false, false)
  }

  /** `_on_data_received`. */
  function OnData(s: Supervision, now: real): (t: Transition)
    ensures t.next == s.(lastDataTime := Some(now), status := DeviceOnline)
    ensures !t.connectCalled && !t.timerStarted
  {
    Transition(s.(lastDataTime := Some(now), status := DeviceOnline), false, false)
  }

  /** `_try_reconnect`: one more attempt is counted; past the ceiling the
      timer is stopped and nothing is called, otherwise `connect()` is. */
  function OnTimer(s: Supervision): (t: Transition)
    ensures t.next.attempts == s.attempts + 1
    ensures t.connectCalled <==> t.next.attempts <= MaxReconnectAttempts
    ensures !t.connectCalled ==> !t.next.timerActive && t.next.status == ReconnectFailed
    ensures t.connectCalled ==> t.next.timerActive == s.timerActive
    ensures t.next.lastDataTime == s.lastDataTime && !t.timerStarted
  {
    var attempts := s.attempts + 1;
    if attempts > MaxReconnectAttempts then
      Transition(s.(attempts := attempts, timerActive := false, status := ReconnectFailed), false, false)
    else
      Transition(s.(attempts := attempts, status := Reconnecting(attempts)), true, false)
  }

  /** The periodic check never calls `connect()` and never moves the counter;
      it changes the timer only by starting an idle one when the link is down,
      and it never changes when data was last seen. */
  lemma CheckRule(s: Supervision, now: real, linkUp: bool)
    ensures var t := OnCheck(s, now, linkUp);
      && !t.connectCalled
      && t.next.attempts == s.attempts
      && t.next.lastDataTime == s.lastDataTime
      && (!linkUp && !s.timerActive ==> t.next.timerActive && t.timerStarted && t.next.status == Disconnected)
      && (!linkUp && s.timerActive ==> t.next == s && !t.timerStarted)
      && (linkUp ==> t.next.timerActive == s.timerActive && !t.timerStarted)
      && (linkUp && s.lastDataTime.None? ==> t.next.status == AwaitingDevice)
      && (linkUp && s.lastDataTime.Some? && now - s.lastDataTime.value > DataTimeout ==>
            t.next.status == DeviceOffline((now - s.lastDataTime.value).Floor) && t.next.status.seconds >= 10)
      && (linkUp && s.lastDataTime.Some? && now - s.lastDataTime.value <= DataTimeout ==> t.next == s)
  {
  }

  /** The events the supervisor reacts to, in the order the event loop
      delivers them. */
  datatype Event =
    | LinkConnected
    | LinkDisconnected
    | LinkFailed(message: string)
    | CheckTick(now: real, linkUp: bool)
    | DataArrived(now: real)
    | TimerFired

  /** One event. The reconnect timer only fires while it is active. */
  function Step(s: Supervision, e: Event): (t: Transition)
    ensures e.TimerFired? && !s.timerActive ==> t == Transition(s, false, false)
    ensures t.connectCalled ==> e.TimerFired? && t.next.attempts == s.attempts + 1 <= MaxReconnectAttempts
    ensures !e.LinkConnected? ==> t.next.attempts >= s.attempts
    ensures e.LinkConnected? ==> t.next.attempts == 0 && !t.next.timerActive
  {
    match e
    case LinkConnected => OnConnected(s)
    case LinkDisconnected => OnDisconnected(s)
    case LinkFailed(m) => OnError(s, m)
    case CheckTick(now, up) => OnCheck(s, now, up)
    case DataArrived(now) => OnData(s, now)
    case TimerFired => if s.timerActive then OnTimer(s) else Transition(s, false, false)
  }

  /** A sequence of events: the final state and how many `connect()` calls
      were made on the way. */
  function Run(s: Supervision, es: seq<Event>): (Supervision, nat)
    decreases |es|
  {
    if es == [] then (s, 0)
    else
      var t := Step(s, es[0]);
      var (final, calls) := Run(t.next, es[1..]);
      (final, calls + if t.connectCalled then 1 else 0)
  }

  predicate NoConnection(es: seq<Event>) {
    forall i :: 0 <= i < |es| ==> !es[i].LinkConnected?
  }

  /** Without a successful connection in between, the supervisor calls
      `connect()` at most as often as the attempts left under the ceiling. */
  lemma {:induction false} ConnectsBounded(s: Supervision, es: seq<Event>)
    requires NoConnection(es)
    ensures Run(s, es).1 <= if s.attempts >= MaxReconnectAttempts then 0 else MaxReconnectAttempts - s.attempts
    ensures Run(s, es).0.attempts >= s.attempts
    decreases |es|
  {
    if es != [] {
      var t := Step(s, es[0]);
      assert NoConnection(es[1..]) by {
        forall i | 0 <= i < |es[1..]| ensures !es[1..][i].LinkConnected? {
          assert es[1..][i] == es[i + 1];
        }
      }
      ConnectsBounded(t.next, es[1..]);
      assert t.connectCalled ==> t.next.attempts == s.attempts + 1 <= MaxReconnectAttempts;
    }
  }

  /** Between two successful connections `connect()` is called at most ten
      times: the count restarts at zero on each connection. */
  lemma AtMostTenConnectsBetweenConnections(s: Supervision, es: seq<Event>)
    requires NoConnection(es)
    ensures Run(OnConnected(s).next, es).1 <= MaxReconnectAttempts
  {
    ConnectsBounded(OnConnected(s).next, es);
  }

  /** Once the ceiling is reached no further `connect()` call is made until the
      link connects again, whatever the checks and the timer do. */
  lemma NoConnectPastCeiling(s: Supervision, es: seq<Event>)
    requires s.attempts >= MaxReconnectAttempts && NoConnection(es)
    ensures Run(s, es).1 == 0
  {
    ConnectsBounded(s, es);
  }

  /** "Terminal" does not mean the timer stays stopped: after the ceiling, a
      check that finds the link down restarts the timer, and its next firing
      stops it again without connecting (and counts one more attempt). */
  lemma TimerCyclesPastCeiling(s: Supervision, now: real)
    requires s.attempts >= MaxReconnectAttempts && !s.timerActive
    ensures var t := Step(s, CheckTick(now, false));
      t.next.timerActive && t.timerStarted && !t.connectCalled
    ensures var (final, calls) := Run(s, [CheckTick(now, false), TimerFired]);
      !final.timerActive && final.status == ReconnectFailed && calls == 0 && final.attempts == s.attempts + 1
  {
    var t := Step(s, CheckTick(now, false));
    assert [CheckTick(now, false), TimerFired][1..] == [TimerFired];
    assert Run(t.next, [TimerFired]) == (OnTimer(t.next).next, 0);
  }

  /** A check exactly at the timeout does not report the device offline; the
      comparison is strict. */
  lemma StaleIsStrict(s: Supervision, seen: real)
    requires s.lastDataTime == Some(seen)
    ensures OnCheck(s, seen + DataTimeout, true).next == s
    ensures OnCheck(s, seen + DataTimeout + 0.5, true).next.status == DeviceOffline(10)
  {
  }
}
