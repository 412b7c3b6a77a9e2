/**
  The connection controller of the IMU manager (the Android build): a
  tick-driven state machine over an opaque serial transport.

  Every transport call is an oracle: its outcome (returned, returned false,
  threw) is an input of the step that makes it. A step yields the new manager
  state, the events delivered to subscribers, and the transport calls made,
  in order.
 */
module Connection {
  import opened Frame
  import opened Text

  /** Serial line parameters passed to the transport's `connect`. */
  datatype SerialSettings = SerialSettings(baudRate: int, dataBits: int, stopBits: int, parity: int)

  /** 115200 baud, 8 data bits, 1 stop bit, parity 0 (none). */
  const DefaultSettings := SerialSettings(115200, 8, 1, 0)

  /** Seconds between reconnection attempts. */
  const DefaultReconnectInterval: real := 3.0

  /** The manager's fields; `plugin` says whether the transport object exists. */
  datatype Manager = Manager(
    settings: SerialSettings,
    autoConnect: bool,
    reconnectInterval: real,
    plugin: bool,
    isConnected: bool,
    reconnectTimer: real,
    currentData: ImuData)

  /** A manager as constructed: disconnected, timer at 0, no sample yet. */
  function NewManager(plugin: bool): Manager
  {
    Manager(DefaultSettings, true, DefaultReconnectInterval, plugin, false, 0.0, DefaultData)
  }

  /** What subscribers observe, in delivery order. */
  datatype Event = Connected | Disconnected | Error(message: string) | Sample(data: ImuData)

  /** Calls made into the transport plugin. */
  datatype Call = CreatePlugin | CallConnect(settings: SerialSettings) | CallDisconnect
                | CallReadData | CallSendData(command: string)

  datatype InitOutcome = PluginLoaded | PluginThrew(message: string)
  datatype ConnectOutcome = ConnectReturned(ok: bool) | ConnectThrew(message: string)
  datatype ReadOutcome = ReadReturned(line: string) | ReadThrew(message: string)
  datatype CallOutcome = CallReturned | CallThrew(message: string)

  /** One host frame: elapsed time, the clock, and what the transport would answer. */
  datatype Tick = Tick(deltaTime: real, time: real, init: InitOutcome, connect: ConnectOutcome, read: ReadOutcome)

  datatype Step = Step(manager: Manager, events: seq<Event>, calls: seq<Call>)

  function Idle(m: Manager): Step
  {
    Step(m, [], [])
  }

  /** `first`, then `second` run on the manager `first` left. */
  function Then(first: Step, second: Step): Step
  {
    Step(second.manager, first.events + second.events, first.calls + second.calls)
  }

  // ---------------------------------------------------------------------
  // What the event trace says about the connection
  // ---------------------------------------------------------------------

  /** The connection state a subscriber infers from `events`, having believed `connected`. */
  function Replay(connected: bool, events: seq<Event>): bool
  {
    if |events| == 0 then connected
    else
      match events[|events| - 1]
      case Connected => true
      case Disconnected => false
      case _ => Replay(connected, events[..|events| - 1])
  }

  lemma {:induction false} ReplayAppend(connected: bool, a: seq<Event>, b: seq<Event>)
    ensures Replay(connected, a + b) == Replay(Replay(connected, a), b)
    decreases |b|
  {
    if |b| == 0 {
      assert a + b == a;
    } else {
      assert (a + b)[..|a + b| - 1] == a + b[..|b| - 1];
      ReplayAppend(connected, a, b[..|b| - 1]);
    }
  }

  /** Every change of `isConnected` made by the step is announced by its events. */
  ghost predicate Announces(before: Manager, s: Step)
  {
    Replay(before.isConnected, s.events) == s.manager.isConnected
  }

  /** The state invariant: the timer never goes negative, and a connection needs the plugin. */
  ghost predicate Valid(m: Manager)
  {
    m.reconnectTimer >= 0.0 && (m.isConnected ==> m.plugin)
  }

  // ---------------------------------------------------------------------
  // Operations
  // ---------------------------------------------------------------------

  /** `InitializePlugin`: creating the plugin object succeeds or reports an error. */
  function InitializePlugin(m: Manager, init: InitOutcome): (r: Step)
    ensures r.calls == [CreatePlugin]
    ensures r.manager.plugin <==> Available(m, init)
    ensures init == PluginLoaded ==> r.manager == m.(plugin := true) && r.events == []
    ensures init.PluginThrew? ==> r.manager == m && r.events == [Error("Plugin initialization failed: " + init.message)]
  {
    match init
    case PluginLoaded => Step(m.(plugin := true), [], [CreatePlugin])
    case PluginThrew(msg) => Step(m, [Error("Plugin initialization failed: " + msg)], [CreatePlugin])
  }

  /** The plugin exists after `Connect`'s null check. */
  predicate Available(m: Manager, init: InitOutcome)
  {
    m.plugin || init == PluginLoaded
  }

  /** `Connect`: exactly one event; the transport's answer alone decides the new state.
      It neither checks for an existing connection nor touches the reconnect timer. */
  function Connect(m: Manager, init: InitOutcome, outcome: ConnectOutcome): (r: Step)
    ensures |r.events| == 1
    ensures r.manager.reconnectTimer == m.reconnectTimer
    ensures r.manager.currentData == m.currentData && r.manager.autoConnect == m.autoConnect
    ensures r.manager.settings == m.settings && r.manager.reconnectInterval == m.reconnectInterval
    ensures !Available(m, init) ==> r.manager == m && r.calls == [CreatePlugin]
    ensures !Available(m, init) ==> r.events == [Error("Plugin initialization failed: " + init.message)]
    ensures Available(m, init) ==> r.manager.plugin
    ensures Available(m, init) ==> r.calls == (if m.plugin then [] else [CreatePlugin]) + [CallConnect(m.settings)]
    ensures Available(m, init) ==> (r.manager.isConnected <==> outcome == ConnectReturned(true))
    ensures Available(m, init) && outcome == ConnectReturned(true) ==> r.events == [Connected]
    ensures Available(m, init) && outcome == ConnectReturned(false) ==> r.events == [Error("Connection failed")]
    ensures Available(m, init) && outcome.ConnectThrew? ==> r.events == [Error("Connection error: " + outcome.message)]
    ensures !m.isConnected ==> Announces(m, r)
    ensures Valid(m) ==> Valid(r.manager)
  {
    if !m.plugin then
      var loaded := InitializePlugin(m, init);
      if !loaded.manager.plugin then loaded
      else Then(loaded, CallTransportConnect(loaded.manager, outcome))
    else CallTransportConnect(m, outcome)
  }

  /** The try block of `Connect`, once the plugin exists. */
  function CallTransportConnect(m: Manager, outcome: ConnectOutcome): Step
    requires m.plugin
  {
    var calls := [CallConnect(m.settings)];
    match outcome
    case ConnectReturned(ok) =>
      if ok then Step(m.(isConnected := true), [Connected], calls)
      else Step(m.(isConnected := false), [Error("Connection failed")], calls)
    case ConnectThrew(msg) => Step(m.(isConnected := false), [Error("Connection error: " + msg)], calls)
  }

  /** `Disconnect`: acts only on a live connection; a throwing transport leaves the
      manager connected and emits nothing. */
  function Disconnect(m: Manager, outcome: CallOutcome): (r: Step)
    ensures !(m.plugin && m.isConnected) ==> r == Idle(m)
    ensures m.plugin && m.isConnected ==> r.calls == [CallDisconnect]
    ensures m.plugin && m.isConnected && outcome == CallReturned ==>
      r.manager == m.(isConnected := false) && r.events == [Disconnected]
    ensures outcome.CallThrew? ==> r.manager == m && r.events == []
    ensures Announces(m, r)
    ensures Valid(m) ==> Valid(r.manager)
  {
    if m.plugin && m.isConnected then
      match outcome
      case CallReturned => Step(m.(isConnected := false), [Disconnected], [CallDisconnect])
      case CallThrew(_) => Step(m, [], [CallDisconnect])
    else Idle(m)
  }

  /** `ReadData`: one poll while connected. An empty line changes nothing; a line
      becomes exactly one sample, which is also the new `currentData`; a throwing
      read is a disconnect, reported as `Disconnected` and never as an error. */
  function ReadData(parse: FloatParser, m: Manager, outcome: ReadOutcome, now: real): (r: Step)
    ensures !(m.plugin && m.isConnected) ==> r == Idle(m)
    ensures m.plugin && m.isConnected ==> r.calls == [CallReadData]
    ensures m.plugin && m.isConnected && outcome == ReadReturned("") ==> r.manager == m && r.events == []
    ensures m.plugin && m.isConnected && outcome.ReadReturned? && outcome.line != "" ==>
      && r.events == [Sample(r.manager.currentData)]
      && r.manager == m.(currentData := r.manager.currentData)
      && r.manager.currentData == ParseImuData(parse, outcome.line, now)
      && forall a :: Component(r.manager.currentData.orientation, a) == MarkerValue(parse, Split(outcome.line, ' '), a)
    ensures m.plugin && m.isConnected && outcome.ReadThrew? ==>
      r.manager == m.(isConnected := false) && r.events == [Disconnected]
    ensures Announces(m, r)
    ensures Valid(m) ==> Valid(r.manager)
  {
    if !m.plugin || !m.isConnected then Idle(m)
    else
      match outcome
      case ReadReturned(line) =>
        if line == "" then Step(m, [], [CallReadData])
        else
          var data := ParseImuData(parse, line, now);
          Step(m.(currentData := data), [Sample(data)], [CallReadData])
      case ReadThrew(_) => Step(m.(isConnected := false), [Disconnected], [CallReadData])
  }

  /** `SendCommand`: forwarded verbatim only while connected; never an event, never a state change. */
  function SendCommand(m: Manager, command: string, outcome: CallOutcome): (r: Step)
    ensures r.manager == m && r.events == []
    ensures r.calls == (if m.plugin && m.isConnected then [CallSendData(command)] else [])
  {
    if m.plugin && m.isConnected then
      match outcome
      case CallReturned => Step(m, [], [CallSendData(command)])
      case CallThrew(_) => Step(m, [], [CallSendData(command)])
    else Idle(m)
  }

  /** `Update`: while disconnected with auto-connect on, the timer accumulates and a
      connection is attempted (timer back to 0) once it reaches the interval; then,
      if connected, one read. */
  function Update(parse: FloatParser, m: Manager, tick: Tick): (r: Step)
    ensures !m.isConnected && !m.autoConnect ==> r == Idle(m)
    ensures m.isConnected ==> r.manager.reconnectTimer == m.reconnectTimer
    ensures m.isConnected && m.plugin ==> r.calls == [CallReadData]
    ensures !m.isConnected && m.autoConnect && m.reconnectTimer + tick.deltaTime < m.reconnectInterval ==>
      r == Idle(m.(reconnectTimer := m.reconnectTimer + tick.deltaTime))
    ensures !m.isConnected && m.autoConnect && m.reconnectTimer + tick.deltaTime >= m.reconnectInterval ==>
      r.manager.reconnectTimer == 0.0
    ensures !m.isConnected && m.autoConnect && m.reconnectTimer + tick.deltaTime >= m.reconnectInterval && m.plugin ==>
      r.calls == [CallConnect(m.settings)] + (if tick.connect == ConnectReturned(true) then [CallReadData] else [])
    ensures m.isConnected ==> r == ReadData(parse, m, tick.read, tick.time)
    ensures !m.isConnected && m.autoConnect && m.reconnectTimer + tick.deltaTime >= m.reconnectInterval ==>
      var attempt := Connect(m.(reconnectTimer := 0.0), tick.init, tick.connect);
      r == if attempt.manager.isConnected
           then Then(attempt, ReadData(parse, attempt.manager, tick.read, tick.time))
           else attempt
    ensures Announces(m, r)
    ensures Valid(m) && tick.deltaTime >= 0.0 ==> Valid(r.manager)
  {
    var afterTimer :=
      if !m.isConnected && m.autoConnect then
        var timer := m.reconnectTimer + tick.deltaTime;
        if timer >= m.reconnectInterval then Connect(m.(reconnectTimer := 0.0), tick.init, tick.connect)
        else Idle(m.(reconnectTimer := timer))
      else Idle(m);
    if afterTimer.manager.isConnected then
      var read := ReadData(parse, afterTimer.manager, tick.read, tick.time);
      ReplayAppend(m.isConnected, afterTimer.events, read.events);
      Then(afterTimer, read)
    else afterTimer
  }

  /** `OnApplicationPause`: pausing disconnects; resuming with auto-connect on
      connects at once, whatever the timer says. */
  function OnApplicationPause(m: Manager, paused: bool, init: InitOutcome, connect: ConnectOutcome,
                              disconnect: CallOutcome): (r: Step)
    ensures r.manager.reconnectTimer == m.reconnectTimer
    ensures paused ==> CallConnect(m.settings) !in r.calls && Announces(m, r)
    ensures paused && m.plugin && disconnect == CallReturned ==> !r.manager.isConnected
    ensures !paused && !m.autoConnect ==> r == Idle(m)
    ensures !paused && m.autoConnect && m.plugin ==> r.calls == [CallConnect(m.settings)] && |r.events| == 1
    ensures paused ==> r == Disconnect(m, disconnect)
    ensures !paused && m.autoConnect ==> r == Connect(m, init, connect)
    ensures !m.isConnected ==> Announces(m, r)
    ensures Valid(m) ==> Valid(r.manager)
  {
    if paused then Disconnect(m, disconnect)
    else if m.autoConnect then Connect(m, init, connect)
    else Idle(m)
  }

  // ---------------------------------------------------------------------
  // Runs of several ticks
  // ---------------------------------------------------------------------

  /** The host calling `Update` once per tick. */
  function Run(parse: FloatParser, m: Manager, ticks: seq<Tick>): Step
    decreases |ticks|
  {
    if |ticks| == 0 then Idle(m)
    else
      var first := Update(parse, m, ticks[0]);
      Then(first, Run(parse, first.manager, ticks[1..]))
  }

  /** Total time the ticks report. */
  function Elapsed(ticks: seq<Tick>): real
  {
    if |ticks| == 0 then 0.0 else ticks[0].deltaTime + Elapsed(ticks[1..])
  }

  ghost predicate ForwardTime(ticks: seq<Tick>)
  {
    forall i :: 0 <= i < |ticks| ==> ticks[i].deltaTime >= 0.0
  }

  lemma {:induction false} ElapsedNonNegative(ticks: seq<Tick>)
    requires ForwardTime(ticks)
    ensures Elapsed(ticks) >= 0.0
  {
    if |ticks| > 0 {
      ElapsedNonNegative(ticks[1..]);
    }
  }

  /** Over any run, the events announce every change of the connection state. */
  lemma {:induction false} RunAnnounces(parse: FloatParser, m: Manager, ticks: seq<Tick>)
    ensures Announces(m, Run(parse, m, ticks))
    decreases |ticks|
  {
    if |ticks| > 0 {
      var first := Update(parse, m, ticks[0]);
      RunAnnounces(parse, first.manager, ticks[1..]);
      ReplayAppend(m.isConnected, first.events, Run(parse, first.manager, ticks[1..]).events);
    }
  }

  /** With time moving forward, every run keeps the state invariant. */
  lemma {:induction false} RunPreservesValid(parse: FloatParser, m: Manager, ticks: seq<Tick>)
    requires Valid(m) && ForwardTime(ticks)
    ensures Valid(Run(parse, m, ticks).manager)
    decreases |ticks|
  {
    if |ticks| > 0 {
      RunPreservesValid(parse, Update(parse, m, ticks[0]).manager, ticks[1..]);
    }
  }

  /** While disconnected with auto-connect on, ticks whose total stays below the
      interval make no transport call and no event; they only advance the timer. */
  lemma {:induction false} QuietBeforeInterval(parse: FloatParser, m: Manager, ticks: seq<Tick>)
    requires !m.isConnected && m.autoConnect && ForwardTime(ticks)
    requires m.reconnectTimer + Elapsed(ticks) < m.reconnectInterval
    ensures Run(parse, m, ticks) == Idle(m.(reconnectTimer := m.reconnectTimer + Elapsed(ticks)))
    decreases |ticks|
  {
    if |ticks| > 0 {
      var rest := ticks[1..];
      ElapsedNonNegative(rest);
      var next := m.(reconnectTimer := m.reconnectTimer + ticks[0].deltaTime);
      assert Update(parse, m, ticks[0]) == Idle(next);
      QuietBeforeInterval(parse, next, rest);
    }
  }

  /** The tick that brings the total to the interval makes exactly one connection
      attempt and resets the timer; a successful attempt is followed by one read. */
  lemma {:induction false} ReconnectWhenIntervalReached(parse: FloatParser, m: Manager, ticks: seq<Tick>, last: Tick)
    requires !m.isConnected && m.autoConnect && m.plugin && ForwardTime(ticks)
    requires m.reconnectTimer + Elapsed(ticks) < m.reconnectInterval
    requires m.reconnectTimer + Elapsed(ticks) + last.deltaTime >= m.reconnectInterval
    ensures Run(parse, m, ticks + [last]).calls
         == [CallConnect(m.settings)] + (if last.connect == ConnectReturned(true) then [CallReadData] else [])
    ensures Run(parse, m, ticks + [last]).manager.reconnectTimer == 0.0
    decreases |ticks|
  {
    var all := ticks + [last];
    if |ticks| == 0 {
      assert all[1..] == [];
    } else {
      var rest := ticks[1..];
      assert all[0] == ticks[0] && all[1..] == rest + [last];
      ElapsedNonNegative(rest);
      var next := m.(reconnectTimer := m.reconnectTimer + ticks[0].deltaTime);
      assert Update(parse, m, ticks[0]) == Idle(next);
      ReconnectWhenIntervalReached(parse, next, rest, last);
    }
  }

  /** `Connect` has no guard against an existing connection: a failed attempt
      while connected drops the connection without a `Disconnected` event. */
  lemma ConnectWhileConnectedDropsSilently(m: Manager, init: InitOutcome)
    requires m.plugin && m.isConnected
    ensures !Connect(m, init, ConnectReturned(false)).manager.isConnected
    ensures Disconnected !in Connect(m, init, ConnectReturned(false)).events
    ensures !Announces(m, Connect(m, init, ConnectReturned(false)))
  {
  }

  /** A device session: the first due tick connects and reads the example frame
      (`SplitExampleLine` shows that ExampleLine has these tokens),
      the next tick's read throws. Subscribers see a connect, one sample carrying
      the frame's orientation, then a disconnect, and no error. */
  lemma ConnectSampleUnplug(parse: FloatParser, first: Tick, second: Tick)
    requires ReadsExample(parse)
    requires first.deltaTime == DefaultReconnectInterval && first.connect == ConnectReturned(true)
    requires first.read.ReadReturned? && Split(first.read.line, ' ') == ExampleTokens
    requires second.read.ReadThrew?
    ensures |Run(parse, NewManager(true), [first, second]).events| == 3
    ensures Run(parse, NewManager(true), [first, second]).events[0] == Connected
    ensures Run(parse, NewManager(true), [first, second]).events[1].Sample?
    ensures Run(parse, NewManager(true), [first, second]).events[1].data.orientation == Quaternion(0.23, -0.96, 0.06, 0.12)
    ensures Run(parse, NewManager(true), [first, second]).events[2] == Disconnected
    ensures !Run(parse, NewManager(true), [first, second]).manager.isConnected
  {
    var m0 := NewManager(true);
    var c := Connect(m0.(reconnectTimer := 0.0), first.init, first.connect);
    assert c.events == [Connected] && c.manager.isConnected && c.manager.plugin;
    var rd := ReadData(parse, c.manager, first.read, first.time);
    DecodeExampleLine(parse, first.read.line, first.time);
    assert first.read.line != "";
    assert rd.events == [Sample(ParseImuData(parse, first.read.line, first.time))];
    var s1 := Update(parse, m0, first);
    assert s1 == Then(c, rd);
    var s2 := Update(parse, s1.manager, second);
    assert s2.events == [Disconnected] && !s2.manager.isConnected;
    var ticks := [first, second];
    assert ticks[1..] == [second];
    assert Run(parse, s1.manager, ticks[1..]) == Then(s2, Idle(s2.manager));
  }
}
