/** The decisions `ensureAccountPanelPlayer` and `createStatusPlayerHTML` take
    about the player in the account panel: whether it is there at all, whether it
    shows the connection status or the track, and which status line it shows. */
module View {
  import opened Wrappers
  import opened Media
  import L = Lifecycle
  import D = Decimal

  /** The player is in the panel. */
  predicate ShouldShow(settings: Settings, status: L.Status) {
    settings.showPlayer && status != L.Error
  }

  /** The player shows the status line rather than a track. */
  predicate ShouldBeStatusView(status: L.Status, state: PlayerState) {
    status != L.Connected || state.track.None?
  }

  const SearchingPrefix: string := "Поиск сервера... ("
  const SearchingSuffix: string := "/5)"
  const ReconnectingText: string := "Переподключение..."

  /** The status line: the attempt count while connecting, a reconnecting
      notice in every other status. */
  function StatusText(status: L.Status, retryAttempts: nat): string {
    if status == L.Connecting then SearchingPrefix + D.NatToString(retryAttempts) + SearchingSuffix
    else ReconnectingText
  }

  /** What the account panel holds. */
  datatype Panel = Hidden | StatusPanel(text: string) | TrackPanel(track: Track, playing: bool)

  /** The view `ensureAccountPanelPlayer` selects from the state it is called
      with, whether it builds the player afresh or updates the one already there
      (both paths select alike). A `TrackPanel` names the track the player is
      meant to show; a player already on screen may keep older content, since
      `updatePlayerContent` skips the update when title, artist and play state
      give the same id as before. */
  function Render(settings: Settings, status: L.Status, retryAttempts: nat, state: PlayerState): Panel {
    if !ShouldShow(settings, status) then Hidden
    else if ShouldBeStatusView(status, state) then StatusPanel(StatusText(status, retryAttempts))
    else TrackPanel(state.track.value, state.playing)
  }

  /** The player is hidden exactly when the user turned it off or the plugin
      gave up; the track view is selected exactly when it is on, connected and
      the server reported a track, and then for that track. */
  lemma RenderCases(settings: Settings, status: L.Status, n: nat, state: PlayerState)
    ensures Render(settings, status, n, state).Hidden? <==> !settings.showPlayer || status == L.Error
    ensures Render(settings, status, n, state).TrackPanel? <==>
              settings.showPlayer && status == L.Connected && state.track.Some?
    ensures Render(settings, status, n, state).TrackPanel? ==>
              Some(Render(settings, status, n, state).track) == state.track &&
              Render(settings, status, n, state).playing == state.playing
    ensures Render(settings, status, n, state).StatusPanel? ==>
              Render(settings, status, n, state).text == StatusText(status, n)
  {
  }

  /** The searching line appears exactly when connecting, and it tells the
      attempt count: two status lines read "searching" with the same text only
      for the same count. */
  lemma SearchingTextIff(status: L.Status, a: nat, b: nat)
    ensures StatusText(status, a) == StatusText(L.Connecting, b) <==> status == L.Connecting && a == b
  {
    var t := StatusText(L.Connecting, b);
    if StatusText(status, a) == t {
      if status != L.Connecting {
        assert false;
      }
      var lo, hi := |SearchingPrefix|, |t| - |SearchingSuffix|;
      assert D.NatToString(a) == t[lo..hi];
      assert D.NatToString(b) == t[lo..hi];
      D.NatToStringInjective(a, b);
    }
  }

  /** In a reachable state the searching line counts at most five attempts. */
  lemma SearchingCountCapped(m: L.Machine, settings: Settings, state: PlayerState)
    requires L.Inv(m)
    requires Render(settings, m.status, m.retryAttempts, state) == StatusPanel(StatusText(L.Connecting, m.retryAttempts))
    ensures m.status == L.Connecting && m.retryAttempts <= L.MaxAttempts
  {
    SearchingTextIff(m.status, m.retryAttempts, m.retryAttempts);
  }
}
