/** Client code that replays end-to-end runs of the widget using nothing but the contracts
    of `Widget.MediaWidget`. */
module Scenarios {
  import opened Wrappers
  import opened Widget
  import AuthFlow

  /** Track A twice, then track B: the second tick changes nothing, the third updates once. */
  method ChangeDetection() {
    var w := new MediaWidget(CredentialsJson(Some("id")), Cached(TokenInfo(Some("token"))));
    assert w.isSpotifyConnected;
    var a := Track("Song A", ["Artist A"]);
    var b := Track("Song B", ["Artist B"]);
    var e := w.CheckMediaPlayers(true, Playing(Some(a)));
    assert e == [Api(CurrentPlayback)];
    assert w.statusText == NowPlayingStatus && w.lastTrackInfo == Some(TrackInfo(a));
    var before := w.State();
    e := w.CheckMediaPlayers(true, Playing(Some(a)));
    assert w.State() == before;
    assert TrackInfo(b) != TrackInfo(a) by { assert TrackInfo(b)[5] != TrackInfo(a)[5]; }
    e := w.CheckMediaPlayers(true, Playing(Some(b)));
    assert w.lastTrackInfo == Some(TrackInfo(b)) && w.currentPlaybackState == Some(b);
  }

  /** No cached token: the tick asks for a login; the relay hands out a code, the exchange
      succeeds, and the next tick queries the playback. */
  method LoginFlow() {
    var w := new MediaWidget(CredentialsJson(Some("id")), NoCache);
    var e := w.CheckMediaPlayers(true, Paused);
    assert e == [] && w.ShowsLogin() && !w.buttonsEnabled;
    var creds := AuthFlow.AuthCredentials("id", "https://relay.example/");
    var url, step, request, notice := w.PollForToken(Some("1700000000000"), "verifier", creds,
                                       AuthFlow.RelayReply(200, Some("abc")), TokenReply(TokenInfo(Some("t"))), false);
    assert step == AuthFlow.ExchangeCode("abc");
    assert w.isSpotifyConnected && w.tokenCache == Cached(TokenInfo(Some("t"))) && notice == Some(ConnectedNotice);
    assert w.buttonsEnabled && w.accountIconConnected;
    TickAfterLogin(w);
  }

  /** Once connected, a tick with the process running queries the playback. */
  method TickAfterLogin(w: MediaWidget)
    requires w.Valid() && w.isSpotifyConnected
    modifies w
  {
    var e := w.CheckMediaPlayers(true, Paused);
    assert e == [Api(CurrentPlayback)] && w.statusText == PausedStatus && w.buttonsEnabled;
  }

  /** The relay has no code yet: poll again in two seconds. Then a code whose exchange fails
      leaves the widget disconnected and says so; the code and the verifier of the attempt are
      what was posted. */
  method FailedExchange() {
    var w := new MediaWidget(CredentialsJson(Some("id")), NoCache);
    var creds := AuthFlow.AuthCredentials("id", "https://relay.example/");
    var url, step, request, notice := w.PollForToken(Some("1700000000000"), "verifier", creds,
                                                     AuthFlow.RelayReply(404, None), TokenRequestFault, false);
    assert url.Some? && step == AuthFlow.RetryAfter(2000) && request.None? && !w.isSpotifyConnected;
    url, step, request, notice := w.PollForToken(Some("1700000000000"), "verifier", creds,
                                                     AuthFlow.RelayReply(200, Some("abc")), TokenRequestFault, false);
    assert notice == Some(AuthFailedNotice) && !w.isSpotifyConnected && !w.buttonsEnabled;
    assert AuthFlow.Lookup(request.value, "code") == Some("abc");
    assert AuthFlow.Lookup(request.value, "code_verifier") == Some("verifier");
  }

  /** After a disconnect every tick with the process running takes the login path, and
      start-up logic can no longer restore the session. */
  method DisconnectThenPoll(query: PlaybackQuery) {
    var w := new MediaWidget(CredentialsJson(Some("id")), Cached(TokenInfo(Some("token"))));
    var e := w.CheckMediaPlayers(true, Playing(Some(Track("S", ["A"]))));
    var notice := w.DisconnectSpotify(false);
    assert w.tokenCache == NoCache && w.lastTrackInfo.None?;
    e := w.CheckMediaPlayers(true, query);
    assert e == [] && w.ShowsLogin() && !w.isSpotifyConnected;
    w.InitializeSpotify(CredentialsJson(Some("id")));
    assert !w.isSpotifyConnected;
  }

  /** Three attempts, then the counter goes back to zero with a notice. */
  method ReconnectBound(credentials: CredentialsFile) {
    var w := new MediaWidget(credentials, NoCache);
    var n := w.TryReconnect(credentials);
    n := w.TryReconnect(credentials);
    n := w.TryReconnect(credentials);
    assert w.reconnectAttempts == 3 && n.None?;
    n := w.TryReconnect(credentials);
    assert w.reconnectAttempts == 0 && n == Some(ReconnectFailedNotice);
  }

  /** A pause leaves the last track info in place, so resuming the same track is not a change:
      the status still reads "Spotify is paused" and the icon still offers "play". */
  method ResumeSameTrack() {
    var w := new MediaWidget(CredentialsJson(Some("id")), Cached(TokenInfo(Some("token"))));
    var a := Track("Song", ["Artist"]);
    var e := w.CheckMediaPlayers(true, Playing(Some(a)));
    e := w.CheckMediaPlayers(true, Paused);
    e := w.CheckMediaPlayers(true, Playing(Some(a)));
    assert w.statusText == PausedStatus && w.playIcon == PlayIcon;
  }

  /** Without the process no command reaches the Web API or the OS. */
  method CommandsWhileNotRunning(query: PlaybackQuery, fails: bool) {
    var w := new MediaWidget(CredentialsJson(Some("id")), Cached(TokenInfo(Some("token"))));
    var e := w.CheckMediaPlayers(false, query);
    var p := w.PreviousTrack(fails);
    var t := w.TogglePlayback(query, fails);
    var n := w.NextTrack(fails);
    assert p == t == n == [Notice(NotRunningNotice)];
  }
}
