/** The connection lifecycle of the mini-player, as a pure state machine.

    The plugin finds the local UniSound server by a sweep over eleven ports,
    keeps the winning WebSocket, retries on a five-second interval timer and gives
    up after five sweeps. Each callback of the plugin is one transition function
    here; the class in module Plugin performs the same transitions on its fields. */
module Lifecycle {
  import opened Wrappers

  /** The values of `connectionStatus`. */
  datatype Status = Disconnected | Connecting | Connected | Error

  /** A WebSocket `readyState`: 0 CONNECTING, 1 OPEN, 2 CLOSING, 3 CLOSED. */
  newtype ReadyState = x: int | 0 <= x < 4

  const OPEN: ReadyState := 1
  const CLOSING: ReadyState := 2

  /** `WebSocket.close()`: a connecting or open socket starts closing; a closing
      or closed one stays as it is. */
  function Close(rs: ReadyState): ReadyState {
    if rs < CLOSING then CLOSING else rs
  }

  /** The number of sweeps after which the plugin stops retrying. */
  const MaxAttempts: nat := 5
  const FirstPort: nat := 5001
  const PortCount: nat := 11

  /** The ports one sweep probes, in the order the probes are opened. */
  function PortsToScan(): (ports: seq<nat>)
    ensures |ports| == PortCount
    ensures forall i, j :: 0 <= i < j < |ports| ==> ports[i] < ports[j]
  {
    seq(PortCount, i => FirstPort + i)
  }

  /** The sweep covers exactly the ports 5001 to 5011. */
  lemma PortsToScanRange(p: int)
    ensures p in PortsToScan() <==> FirstPort <= p < FirstPort + PortCount
  {
    if FirstPort <= p < FirstPort + PortCount {
      assert PortsToScan()[p - FirstPort] == p;
    }
  }

  /** The fields of the plugin that the lifecycle reads and writes. `socket` is
      the readyState of the socket the plugin holds, if any; `timerPending` says
      whether `reconnectInterval` holds a live interval timer. */
  datatype Machine = Machine(
    status: Status,
    retryAttempts: nat,
    isConnecting: bool,
    timerPending: bool,
    socket: Option<ReadyState>,
    serverPort: Option<nat>)

  /** The state the constructor leaves. */
  const Initial: Machine := Machine(Disconnected, 0, false, false, None, None)

  /** The held socket is connecting or open (`readyState < 2`). */
  predicate SocketLive(m: Machine) {
    m.socket.Some? && m.socket.value < CLOSING
  }

  /** `findAndConnect`: launch a sweep unless one is in flight or a live socket is held. */
  function FindAndConnect(m: Machine): Machine {
    if m.isConnecting || SocketLive(m) then m
    else m.(isConnecting := true, status := Connecting, retryAttempts := m.retryAttempts + 1)
  }

  /** The success continuation of the sweep: the probe on `port` opened first. */
  function OnSweepSuccess(m: Machine, port: nat): Machine {
    m.(isConnecting := false, retryAttempts := 0, serverPort := Some(port),
       socket := Some(OPEN), status := Connected, timerPending := false)
  }

  /** The failure continuation of the sweep: every probe failed. */
  function OnSweepFailure(m: Machine): Machine {
    var m1 := m.(isConnecting := false);
    if m1.retryAttempts >= MaxAttempts then m1.(timerPending := false, status := Error)
    else if !m1.timerPending then m1.(status := Disconnected, timerPending := true)
    else m1
  }

  /** `disconnect(isReconnecting)`. It leaves `isConnecting` alone. */
  function Disconnect(m: Machine, isReconnecting: bool): Machine {
    m.(timerPending := false, socket := None, serverPort := None,
       retryAttempts := if isReconnecting then m.retryAttempts else 0,
       status := Disconnected)
  }

  /** The `onclose` handler of the connected socket. */
  function OnClose(m: Machine): Machine {
    var m1 := Disconnect(m, true);
    if !m1.timerPending then m1.(retryAttempts := 0, timerPending := true) else m1
  }

  /** The `onerror` handler of the connected socket: it only closes the socket. */
  function OnError(m: Machine): Machine {
    match m.socket
    case None => m
    case Some(rs) => m.(socket := Some(Close(rs)))
  }

  /** `start()`: reset the counter, then `findAndConnect`. */
  function Start(m: Machine): Machine {
    FindAndConnect(m.(retryAttempts := 0))
  }

  /** `stop()`, as far as the lifecycle goes: `disconnect()`. */
  function Stop(m: Machine): Machine {
    Disconnect(m, false)
  }

  /** How a sweep settles: `Promise.any` resolves with the first port whose probe
      opened, or rejects when all eleven probes failed. */
  datatype SweepOutcome = Found(port: nat) | AllFailed

  /** What can happen to the plugin: the host starts or stops it, the interval
      timer fires, the sweep in flight settles, or the held socket reports an
      error or a close. */
  datatype Event =
    | PluginStart
    | PluginStop
    | TimerTick
    | SweepSettled(outcome: SweepOutcome)
    | SocketError
    | SocketClose

  /** When an event can occur: the timer fires only while it is pending, a
      sweep settles only while one is in flight, and only on a scanned port.
      Socket events are allowed at any time, since the handlers stay attached
      to the socket after the plugin lets go of it. */
  predicate Enabled(m: Machine, e: Event) {
    match e
    case TimerTick => m.timerPending
    case SweepSettled(o) => m.isConnecting && (o.Found? ==> o.port in PortsToScan())
    case _ => true
  }

  function Step(m: Machine, e: Event): Machine {
    match e
    case PluginStart => Start(m)
    case PluginStop => Stop(m)
    case TimerTick => FindAndConnect(m)
    case SweepSettled(Found(p)) => OnSweepSuccess(m, p)
    case SweepSettled(AllFailed) => OnSweepFailure(m)
    case SocketError => OnError(m)
    case SocketClose => OnClose(m)
  }

  /** Every event of `es` can occur when it does. */
  predicate ValidRun(m: Machine, es: seq<Event>)
    decreases |es|
  {
    es == [] || (Enabled(m, es[0]) && ValidRun(Step(m, es[0]), es[1..]))
  }

  function Run(m: Machine, es: seq<Event>): Machine
    decreases |es|
  {
    if es == [] then m else Run(Step(m, es[0]), es[1..])
  }

  /** The statuses the plugin shows after each event of `es`. */
  function Statuses(m: Machine, es: seq<Event>): (r: seq<Status>)
    ensures |r| == |es|
    decreases |es|
  {
    if es == [] then [] else [Step(m, es[0]).status] + Statuses(Step(m, es[0]), es[1..])
  }

  /** The invariant of the lifecycle:
      - the attempt counter never passes the cap, and a pending timer with no
        sweep in flight means the next sweep is still allowed;
      - `error` leaves no timer and no sweep in flight;
      - `connected` means a socket is held, no sweep is in flight and no timer pends;
      - a socket is held exactly when a port is known, and the port is a scanned one;
      - a live socket means `connected`. */
  predicate Inv(m: Machine) {
    && m.retryAttempts <= MaxAttempts
    && (m.timerPending && !m.isConnecting ==> m.retryAttempts < MaxAttempts)
    && (m.status == Error ==> !m.timerPending && !m.isConnecting)
    && (m.status == Connected ==> m.socket.Some? && !m.isConnecting && !m.timerPending)
    && (m.socket.Some? <==> m.serverPort.Some?)
    && (m.serverPort.Some? ==> FirstPort <= m.serverPort.value < FirstPort + PortCount)
    && (SocketLive(m) ==> m.status == Connected)
  }

  /** `findAndConnect` may increment the counter without passing the cap. */
  predicate MaySweep(m: Machine) {
    m.isConnecting || SocketLive(m) || m.retryAttempts < MaxAttempts
  }

  lemma InitialInv()
    ensures Inv(Initial)
  {
  }

  /** A pending timer may always fire. */
  lemma TimerMaySweep(m: Machine)
    requires Inv(m) && m.timerPending
    ensures MaySweep(m)
  {
  }

  /** Every transition that can occur keeps the invariant. */
  lemma StepInv(m: Machine, e: Event)
    requires Inv(m) && Enabled(m, e)
    ensures Inv(Step(m, e))
  {
    if e.SweepSettled? && e.outcome.Found? {
      PortsToScanRange(e.outcome.port);
    }
  }

  /** Every run from an invariant state keeps the invariant. */
  lemma {:induction false} RunInv(m: Machine, es: seq<Event>)
    requires Inv(m) && ValidRun(m, es)
    ensures Inv(Run(m, es))
    decreases |es|
  {
    if es != [] {
      StepInv(m, es[0]);
      RunInv(Step(m, es[0]), es[1..]);
    }
  }

  /** Whatever happens after the constructor, the attempt counter stays at most
      five and the terminal `error` status leaves no retry timer. */
  lemma ReachableCapped(es: seq<Event>)
    requires ValidRun(Initial, es)
    ensures Run(Initial, es).retryAttempts <= MaxAttempts
    ensures Run(Initial, es).status == Error ==> !Run(Initial, es).timerPending
  {
    ReachableInv(es);
  }

  lemma ReachableInv(es: seq<Event>)
    requires ValidRun(Initial, es)
    ensures Inv(Run(Initial, es))
  {
    InitialInv();
    RunInv(Initial, es);
  }

  /** The events that happen without the host's involvement. */
  predicate Automatic(e: Event) {
    e.TimerTick? || e.SweepSettled? || e.SocketError?
  }

  /** Once in `error`, no timer fires and no sweep settles: only the host
      (start, stop) or a close event of a socket can move the plugin on. */
  lemma {:induction false} ErrorPersists(m: Machine, es: seq<Event>)
    requires Inv(m) && m.status == Error && ValidRun(m, es)
    requires forall i :: 0 <= i < |es| ==> Automatic(es[i])
    ensures Run(m, es).status == Error
    ensures Run(m, es).retryAttempts == m.retryAttempts
    ensures !Run(m, es).timerPending && !Run(m, es).isConnecting
    decreases |es|
  {
    if es != [] {
      assert es[0] == SocketError by { assert Automatic(es[0]); }
      StepInv(m, es[0]);
      ErrorPersists(Step(m, es[0]), es[1..]);
    }
  }

  /** The attempt counter changes only in these ways: it goes up by one when a
      sweep is launched, and it goes down only through `start`, `stop`, a
      successful sweep or a close event, each of which resets it to zero (`start`
      then launches a sweep unless one is in flight, which counts as attempt one).
      A failed sweep keeps it. */
  lemma CounterChanges(m: Machine, e: Event)
    requires Inv(m) && Enabled(m, e)
    ensures Step(m, e).retryAttempts > m.retryAttempts ==>
              Step(m, e).retryAttempts == m.retryAttempts + 1 && Step(m, e).isConnecting && !m.isConnecting
    ensures Step(m, e).retryAttempts < m.retryAttempts ==>
              (e.PluginStart? && Step(m, e).retryAttempts <= 1) ||
              (Step(m, e).retryAttempts == 0 &&
               (e.PluginStop? || e.SocketClose? || (e.SweepSettled? && e.outcome.Found?)))
    ensures e == SweepSettled(AllFailed) ==> Step(m, e).retryAttempts == m.retryAttempts
  {
  }

  /** A failed sweep below the cap with a timer already pending changes nothing
      but `isConnecting`: in particular the status is not set to `disconnected`. */
  lemma FailureWithPendingTimer(m: Machine)
    requires m.retryAttempts < MaxAttempts && m.timerPending
    ensures OnSweepFailure(m) == m.(isConnecting := false)
  {
  }

  /** The close handler always takes its `!reconnectInterval` branch, because
      `disconnect(true)` has just cleared the timer: a close always ends with no
      socket, no port, `disconnected`, a zero counter and a pending timer. */
  lemma CloseAlwaysRearms(m: Machine)
    ensures OnClose(m) == m.(socket := None, serverPort := None, status := Disconnected,
                             retryAttempts := 0, timerPending := true)
  {
  }

  /** `stop()` closes the held socket but leaves its close handler attached; the
      close event that follows arms the retry timer again. */
  lemma StopThenCloseRearms(m: Machine)
    ensures Run(m, [PluginStop, SocketClose]).timerPending
    ensures Run(m, [PluginStop, SocketClose]).status == Disconnected
  {
    assert Run(m, [PluginStop, SocketClose]) == OnClose(Stop(m)) by {
      assert [PluginStop, SocketClose][1..] == [SocketClose];
    }
  }

  /** The server is down: five sweeps fail one after another. The status goes
      `connecting`, `disconnected` (the first failure arms the timer), then stays
      `connecting` through the next failures (the timer is already pending), and
      ends in `error` with no timer and the counter at five. */
  lemma AllPortsRefuse()
    ensures var es := [PluginStart, SweepSettled(AllFailed),
                       TimerTick, SweepSettled(AllFailed),
                       TimerTick, SweepSettled(AllFailed),
                       TimerTick, SweepSettled(AllFailed),
                       TimerTick, SweepSettled(AllFailed)];
            && ValidRun(Initial, es)
            && Statuses(Initial, es) == [Connecting, Disconnected, Connecting, Connecting, Connecting,
                                         Connecting, Connecting, Connecting, Connecting, Error]
            && Run(Initial, es) == Initial.(status := Error, retryAttempts := MaxAttempts)
  {
  }
}
