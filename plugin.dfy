/** The plugin object. Its fields are the ones the source's callbacks update in
    place; each callback is a method that performs one transition of module
    Lifecycle on those fields and leaves every other field alone. */
module Plugin {
  import opened Wrappers
  import opened Media
  import L = Lifecycle
  import A = Artwork
  import C = Command

  class MiniPlayer {
    var playerState: PlayerState
    var connectionStatus: L.Status
    /** The readyState of the socket held, if any. */
    var socket: Option<L.ReadyState>
    /** `reconnectInterval` holds a live interval timer. */
    var reconnectTimerPending: bool
    var artworkCache: A.Cache
    var settings: Settings
    var retryAttempts: nat
    var isConnecting: bool
    var serverPort: Option<nat>

    /** The lifecycle fields, as a value of the state machine. */
    function State(): L.Machine
      reads this
    {
      L.Machine(connectionStatus, retryAttempts, isConnecting, reconnectTimerPending, socket, serverPort)
    }

    ghost predicate Valid()
      reads this
    {
      L.Inv(State())
    }

    /** `this.serverPort` is truthy: known and not 0. */
    predicate PortKnown()
      reads this
    {
      serverPort.Some? && serverPort.value != 0
    }

    constructor ()
      ensures Valid() && State() == L.Initial
      ensures playerState == NothingPlaying && artworkCache == map[] && settings == DefaultSettings
    {
      playerState := NothingPlaying;
      connectionStatus := L.Disconnected;
      socket := None;
      reconnectTimerPending := false;
      artworkCache := map[];
      settings := DefaultSettings;
      retryAttempts := 0;
      isConnecting := false;
      serverPort := None;
    }

    /** `start()`: load the stored settings over the current ones, reset the
        counter and look for the server. */
    method Start(stored: StoredSettings)
      requires Valid()
      modifies this`settings, this`retryAttempts, this`isConnecting, this`connectionStatus
      ensures Valid() && State() == L.Start(old(State()))
      ensures settings == MergeSettings(old(settings), stored)
      ensures old(isConnecting || L.SocketLive(State())) ==>
                retryAttempts == 0 && isConnecting == old(isConnecting) && connectionStatus == old(connectionStatus)
      ensures !old(isConnecting || L.SocketLive(State())) ==>
                retryAttempts == 1 && isConnecting && connectionStatus == L.Connecting
    {
      settings := MergeSettings(settings, stored);
      retryAttempts := 0;
      FindAndConnect();
    }

    /** `findAndConnect()`: unless a sweep is in flight or a live socket is held,
        mark a sweep in flight, show `connecting` and count one more attempt.
        Its callers, `start()` and the retry timer, call it only below the cap. */
    method FindAndConnect()
      requires Valid() && L.MaySweep(State())
      modifies this`isConnecting, this`connectionStatus, this`retryAttempts
      ensures Valid() && State() == L.FindAndConnect(old(State()))
      ensures old(isConnecting || L.SocketLive(State())) ==> State() == old(State())
      ensures !old(isConnecting || L.SocketLive(State())) ==>
                isConnecting && connectionStatus == L.Connecting && retryAttempts == old(retryAttempts) + 1
    {
      if isConnecting || L.SocketLive(State()) {
        return;
      }
      isConnecting := true;
      connectionStatus := L.Connecting;
      retryAttempts := retryAttempts + 1;
    }

    /** The sweep settled with the probe on `port` opening first. */
    method OnSweepSuccess(port: nat)
      requires Valid() && isConnecting && port in L.PortsToScan()
      modifies this`isConnecting, this`retryAttempts, this`serverPort, this`socket,
               this`connectionStatus, this`reconnectTimerPending
      ensures Valid() && State() == L.OnSweepSuccess(old(State()), port)
      ensures !isConnecting && retryAttempts == 0 && serverPort == Some(port) && socket == Some(L.OPEN)
      ensures connectionStatus == L.Connected && !reconnectTimerPending
    {
      L.PortsToScanRange(port);
      isConnecting := false;
      retryAttempts := 0;
      serverPort := Some(port);
      socket := Some(L.OPEN);
      connectionStatus := L.Connected;
      reconnectTimerPending := false;
    }

    /** The sweep settled with every probe failed. At the cap the plugin gives
        up: `error`, no timer, and the alert is shown. Below it, the first failure
        arms the timer and shows `disconnected`; while the timer is pending a
        failure changes neither. */
    method OnSweepFailure() returns (alertShown: bool)
      requires Valid() && isConnecting
      modifies this`isConnecting, this`reconnectTimerPending, this`connectionStatus
      ensures Valid() && State() == L.OnSweepFailure(old(State()))
      ensures !isConnecting
      ensures alertShown <==> old(retryAttempts) >= L.MaxAttempts
      ensures alertShown ==> connectionStatus == L.Error && !reconnectTimerPending
      ensures !alertShown && !old(reconnectTimerPending) ==>
                connectionStatus == L.Disconnected && reconnectTimerPending
      ensures !alertShown && old(reconnectTimerPending) ==>
                connectionStatus == old(connectionStatus) && reconnectTimerPending
    {
      isConnecting := false;
      if retryAttempts >= L.MaxAttempts {
        reconnectTimerPending := false;
        connectionStatus := L.Error;
        return true;
      }
      alertShown := false;
      if !reconnectTimerPending {
        connectionStatus := L.Disconnected;
        reconnectTimerPending := true;
      }
    }

    /** `disconnect(isReconnecting)`: clear the timer, close and drop the socket,
        forget the port, show `disconnected`; reset the counter unless reconnecting. */
    method Disconnect(isReconnecting: bool)
      requires Valid()
      modifies this`reconnectTimerPending, this`socket, this`serverPort, this`retryAttempts,
               this`connectionStatus
      ensures Valid() && State() == L.Disconnect(old(State()), isReconnecting)
      ensures !reconnectTimerPending && socket.None? && serverPort.None?
      ensures connectionStatus == L.Disconnected
      ensures retryAttempts == if isReconnecting then old(retryAttempts) else 0
    {
      reconnectTimerPending := false;
      socket := None;
      serverPort := None;
      if !isReconnecting {
        retryAttempts := 0;
      }
      connectionStatus := L.Disconnected;
    }

    /** The `onclose` handler: disconnect while reconnecting, then restart the
        count and arm the timer if none is pending (which is always so). */
    method OnClose()
      requires Valid()
      modifies this`reconnectTimerPending, this`socket, this`serverPort, this`retryAttempts,
               this`connectionStatus
      ensures Valid() && State() == L.OnClose(old(State()))
      ensures socket.None? && serverPort.None? && connectionStatus == L.Disconnected
      ensures retryAttempts == 0 && reconnectTimerPending
    {
      Disconnect(true);
      if !reconnectTimerPending {
        retryAttempts := 0;
        reconnectTimerPending := true;
      }
    }

    /** The `onerror` handler: close the socket; its close event comes later. */
    method OnError()
      requires Valid()
      modifies this`socket
      ensures Valid() && State() == L.OnError(old(State()))
      ensures socket == if old(socket).Some? then Some(L.Close(old(socket).value)) else None
    {
      if socket.Some? {
        socket := Some(L.Close(socket.value));
      }
    }

    /** The interval timer fires. */
    method OnTimerTick()
      requires Valid() && reconnectTimerPending
      modifies this`isConnecting, this`connectionStatus, this`retryAttempts
      ensures Valid() && State() == L.FindAndConnect(old(State()))
    {
      L.TimerMaySweep(State());
      FindAndConnect();
    }

    /** `stop()`: disconnect and empty the artwork cache. */
    method Stop()
      requires Valid()
      modifies this`reconnectTimerPending, this`socket, this`serverPort, this`retryAttempts,
               this`connectionStatus, this`artworkCache
      ensures Valid() && State() == L.Stop(old(State()))
      ensures artworkCache == map[]
    {
      Disconnect(false);
      artworkCache := map[];
    }

    /** `sendCommand(action, body)`: without a port nothing is requested;
        otherwise one POST goes to the server, and a network error is reported
        but not retried. */
    method SendCommand(action: string, body: string, networkError: bool) returns (outcome: C.CommandOutcome)
      ensures outcome.NoServer? <==> !PortKnown()
      ensures PortKnown() ==>
                outcome.request == C.CommandRequest(serverPort.value, action, body) &&
                (outcome.SendFailed? <==> networkError)
    {
      if !PortKnown() {
        return C.NoServer;
      }
      var request := C.CommandRequest(serverPort.value, action, body);
      outcome := if networkError then C.SendFailed(request) else C.Sent(request);
    }

    /** `getArtworkDataUrl(url)`, with the outcome of the fetch as an input. */
    method GetArtworkDataUrl(url: Option<string>, fetch: A.FetchOutcome) returns (dataUrl: Option<string>)
      modifies this`artworkCache
      ensures A.Resolution(dataUrl, artworkCache) == A.Resolve(old(artworkCache), url, fetch)
    {
      if url.None? || url.value == "" {
        return None;
      }
      if url.value in artworkCache {
        return artworkCache[url.value];
      }
      match fetch
      case ReadDone(result) =>
        artworkCache := artworkCache[url.value := result];
        dataUrl := result;
      case _ =>
        dataUrl := None;
    }

    /** The `onmessage` handler. `parsed` is the message, or `None` when it did
        not parse; then nothing changes. Otherwise the track's artwork is
        resolved and the whole state is replaced. */
    method OnMessage(parsed: Option<PlayerState>, fetch: A.FetchOutcome)
      modifies this`playerState, this`artworkCache
      ensures parsed.None? ==> playerState == old(playerState) && artworkCache == old(artworkCache)
      ensures parsed.Some? && parsed.value.track.None? ==>
                playerState == parsed.value && artworkCache == old(artworkCache)
      ensures parsed.Some? && parsed.value.track.Some? ==>
                var t := parsed.value.track.value;
                var r := A.Resolve(old(artworkCache), t.artworkSrc, fetch);
                artworkCache == r.cache &&
                playerState == parsed.value.(track := Some(t.(artworkDataUrl := r.dataUrl)))
    {
      if parsed.None? {
        return;
      }
      var data := parsed.value;
      if data.track.Some? {
        var dataUrl := GetArtworkDataUrl(data.track.value.artworkSrc, fetch);
        data := data.(track := Some(data.track.value.(artworkDataUrl := dataUrl)));
      }
      playerState := data;
    }
  }

  /** The server is not running: the plugin starts and five sweeps fail, each
      after the timer fired. Returns the status after each step, whether the
      timer is left pending, and how often the give-up alert was shown. */
  method AllPortsRefuse() returns (statuses: seq<L.Status>, timerLeft: bool, alerts: nat)
    ensures statuses == [L.Connecting, L.Disconnected, L.Connecting, L.Connecting, L.Connecting,
                         L.Connecting, L.Connecting, L.Connecting, L.Connecting, L.Error]
    ensures !timerLeft && alerts == 1
  {
    var p := new MiniPlayer();
    p.Start(StoredSettings(None, None, None));
    var s0 := p.connectionStatus;
    var a1 := p.OnSweepFailure();
    var s1 := p.connectionStatus;
    assert p.State() == L.Initial.(retryAttempts := 1, timerPending := true);
    p.OnTimerTick();
    var s2 := p.connectionStatus;
    var a2 := p.OnSweepFailure();
    var s3 := p.connectionStatus;
    assert p.State() == L.Initial.(status := L.Connecting, retryAttempts := 2, timerPending := true);
    p.OnTimerTick();
    var s4 := p.connectionStatus;
    var a3 := p.OnSweepFailure();
    var s5 := p.connectionStatus;
    assert p.State() == L.Initial.(status := L.Connecting, retryAttempts := 3, timerPending := true);
    p.OnTimerTick();
    var s6 := p.connectionStatus;
    var a4 := p.OnSweepFailure();
    var s7 := p.connectionStatus;
    assert p.State() == L.Initial.(status := L.Connecting, retryAttempts := 4, timerPending := true);
    p.OnTimerTick();
    var s8 := p.connectionStatus;
    var a5 := p.OnSweepFailure();
    var s9 := p.connectionStatus;
    statuses := [s0, s1, s2, s3, s4, s5, s6, s7, s8, s9];
    alerts := (if a1 then 1 else 0) + (if a2 then 1 else 0) + (if a3 then 1 else 0) +
              (if a4 then 1 else 0) + (if a5 then 1 else 0);
    timerLeft := p.reconnectTimerPending;
  }
}
