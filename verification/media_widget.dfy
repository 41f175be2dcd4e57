/** The playback and connection controller of `MediaWidget`: its state fields, the poll tick,
    reconnection, start-up, the end of the authorization flow, disconnection and the three
    playback commands. Everything outside the widget is an input (what the process scan found,
    what the Web API or a file answered) or an output (the effects a command produces). */
module Widget {
  import opened Wrappers
  import Text
  import AuthFlow

  /** A track as the Web API reports it: its name and the names of its artists. */
  datatype Track = Track(name: string, artists: seq<string>)

  /** The outcome of `current_playback()`: an exception, no playback at all, a playback that is
      not playing, or one that is playing with or without a current item. */
  datatype PlaybackQuery = QueryFault | NoPlayback | Paused | Playing(item: Option<Track>)

  datatype Icon = PlayIcon | PauseIcon

  function Flip(icon: Icon): Icon {
    if icon == PlayIcon then PauseIcon else PlayIcon
  }

  datatype MediaKey = PrevTrackKey | PlayPauseKey | NextTrackKey

  datatype ApiCall = CurrentPlayback | PreviousTrackCall | NextTrackCall | PausePlayback | StartPlayback

  /** What a command does outside the widget: a tooltip notice, a Web API call or an OS media key. */
  datatype Effect = Notice(message: string) | Api(call: ApiCall) | KeyPress(key: MediaKey)

  /** `spotify_credentials.json`: absent, not a JSON object, or an object with or without `client_id`. */
  datatype CredentialsFile = NoCredentialsFile | MalformedCredentials | CredentialsJson(clientId: Option<string>)

  /** A token response or cached token: a JSON object with or without `access_token`. */
  datatype TokenInfo = TokenInfo(accessToken: Option<string>)

  /** The token cache file: absent, unreadable, or holding a token object. */
  datatype TokenCache = NoCache | UnreadableCache | Cached(info: TokenInfo)

  /** The answer of the token endpoint: an exception, or a JSON body. */
  datatype TokenResponse = TokenRequestFault | TokenReply(info: TokenInfo)

  const MaxReconnectAttempts: nat := 3
  const ActiveIntervalMs: nat := 2000
  const IdleIntervalMs: nat := 5000
  const SongLabelLength: int := 25
  const ArtistLabelLength: int := 30

  const InitialStatus: string := "No media player detected"
  const NotRunningStatus: string := "Spotify is not running"
  const LoginStatus: string := "Spotify not connected"
  const NowPlayingStatus: string := "Now playing on Spotify"
  const NoTrackStatus: string := "No track playing"
  const PausedStatus: string := "Spotify is paused"
  const ErrorStatus: string := "Error connecting to Spotify"
  const DisconnectedStatus: string := "Spotify disconnected"

  const NotRunningNotice: string := "Spotify is not running"
  const SkipFailedNotice: string := "Failed to skip track"
  const ControlFailedNotice: string := "Failed to control playback"
  const MediaKeyFailedNotice: string := "Failed to send media command"
  const ReconnectFailedNotice: string := "Failed to connect to Spotify. Please check your connection."
  const ConnectedNotice: string := "Successfully connected to Spotify!"
  const AuthFailedNotice: string := "Failed to connect to Spotify. Please try again."
  const DisconnectedNotice: string := "Disconnected from Spotify"
  const DisconnectErrorNotice: string := "Error disconnecting from Spotify"

  /** The `"song - artist"` string the tick compares to detect a track change: the title,
      then `" - "`, then the first artist. */
  function TrackInfo(track: Track): (info: string)
    requires |track.artists| > 0
    ensures |info| == |track.name| + 3 + |track.artists[0]|
    ensures info[..|track.name|] == track.name
    ensures info[|track.name|..|track.name| + 3] == " - "
    ensures info[|track.name| + 3..] == track.artists[0]
  {
    track.name + " - " + track.artists[0]
  }

  /** Change detection compares the joined string, so two different tracks can look alike. */
  lemma TrackInfoConflates()
    ensures Track("A - B", ["C"]) != Track("A", ["B - C"])
    ensures TrackInfo(Track("A - B", ["C"])) == TrackInfo(Track("A", ["B - C"]))
  {
    assert TrackInfo(Track("A - B", ["C"])) == "A - B - C";
    assert TrackInfo(Track("A", ["B - C"])) == "A - B - C";
  }

  /** A query that reaches the change detection: playing, with an item that has an artist. */
  predicate PlayingTrack(query: PlaybackQuery) {
    query.Playing? && query.item.Some? && |query.item.value.artists| > 0
  }

  /** A query that ends in the tick's exception handler: the query raised, or the item has no
      artist and `track['artists'][0]` raises. */
  predicate TickFault(query: PlaybackQuery) {
    query.QueryFault? || (query.Playing? && query.item.Some? && |query.item.value.artists| == 0)
  }

  /** Start-up finds a usable session: credentials with a client id and a cached, non-empty token. */
  predicate CanRestoreSession(credentials: CredentialsFile, cache: TokenCache) {
    && credentials.CredentialsJson? && credentials.clientId.Some?
    && cache.Cached? && cache.info.accessToken.Some? && cache.info.accessToken.value != ""
  }

  /** The token exchange succeeds: the body has `access_token` and the cache file is written. */
  predicate ExchangeSucceeds(response: TokenResponse, cacheWriteFails: bool) {
    response.TokenReply? && response.info.accessToken.Some? && !cacheWriteFails
  }

  /** `[Notice(message)]` when the outbound call raised, nothing otherwise. */
  function FailureNotice(failed: bool, message: string): seq<Effect> {
    if failed then [Notice(message)] else []
  }

  const VolumeMin: int := 0
  const VolumeMax: int := 100
  const VolumeStep: int := 5

  /** The volume-up hotkey: five more, capped at 100. */
  function VolumeUp(volume: int): (r: int)
    ensures r <= VolumeMax && r <= volume + VolumeStep
    ensures r == volume + VolumeStep || r == VolumeMax
  {
    if volume + VolumeStep < VolumeMax then volume + VolumeStep else VolumeMax
  }

  /** The volume-down hotkey: five less, floored at 0. */
  function VolumeDown(volume: int): (r: int)
    ensures r >= VolumeMin && r >= volume - VolumeStep
    ensures r == volume - VolumeStep || r == VolumeMin
  {
    if volume - VolumeStep > VolumeMin then volume - VolumeStep else VolumeMin
  }

  /** Both hotkeys turn a slider value in 0..100 into a volume in 0..100. */
  lemma VolumeKeysStayInRange(volume: int)
    requires VolumeMin <= volume <= VolumeMax
    ensures VolumeMin <= VolumeUp(volume) <= VolumeMax
    ensures VolumeMin <= VolumeDown(volume) <= VolumeMax
  {
  }

  /** All fields of the controller at once, to say "nothing changed". */
  datatype Snapshot = Snapshot(
    running: bool, connected: bool, hasClient: bool,
    playback: Option<Track>, lastTrackInfo: Option<string>, reconnectAttempts: nat,
    status: string, song: string, artist: string, icon: Icon,
    buttonsEnabled: bool, accountConnected: bool, intervalMs: nat, cache: TokenCache)

  class MediaWidget {
    var isSpotifyRunning: bool
    var isSpotifyConnected: bool
    /** Whether `self.spotify` holds a client. */
    var hasClient: bool
    /** The playback last shown as "now playing"; only its track matters here. */
    var currentPlaybackState: Option<Track>
    var lastTrackInfo: Option<string>
    var reconnectAttempts: nat
    var statusText: string
    var songText: string
    var artistText: string
    var playIcon: Icon
    /** Whether the previous, play and next buttons are enabled. */
    var buttonsEnabled: bool
    /** Whether the account button shows the connected icon. */
    var accountIconConnected: bool
    /** The interval of the poll timer. */
    var pollIntervalMs: nat
    /** The token cache file the widget reads at start-up, writes on login and deletes on logout. */
    var tokenCache: TokenCache

    /** The object invariant: the attempt counter stays within its bound, and the widget is
        only ever connected through a client. */
    ghost predicate Valid()
      reads this
    {
      reconnectAttempts <= MaxReconnectAttempts && (isSpotifyConnected ==> hasClient)
    }

    function State(): Snapshot
      reads this
    {
      Snapshot(isSpotifyRunning, isSpotifyConnected, hasClient, currentPlaybackState, lastTrackInfo,
               reconnectAttempts, statusText, songText, artistText, playIcon, buttonsEnabled,
               accountIconConnected, pollIntervalMs, tokenCache)
    }

    /** Playback commands go through the Web API. */
    predicate UsesApi()
      reads this
    {
      hasClient && isSpotifyConnected
    }

    /** The labels as `show_spotify_login` leaves them. */
    predicate ShowsLogin()
      reads this
    {
      statusText == LoginStatus && songText == "" && artistText == ""
    }

    /** The buttons as `update_button_states` leaves them. */
    predicate ButtonsReflectState()
      reads this
    {
      buttonsEnabled == (isSpotifyRunning && isSpotifyConnected) && accountIconConnected == isSpotifyConnected
    }

    /** `__init__`, for the state it sets up: fields, `initialize_spotify`, the 2-second
        poll timer and `update_button_states`. */
    constructor (credentials: CredentialsFile, cache: TokenCache)
      ensures Valid()
      ensures isSpotifyConnected == hasClient == CanRestoreSession(credentials, cache)
      ensures !isSpotifyRunning && currentPlaybackState.None? && lastTrackInfo.None?
      ensures reconnectAttempts == 0 && tokenCache == cache && pollIntervalMs == ActiveIntervalMs
      ensures statusText == (if CanRestoreSession(credentials, cache) then InitialStatus else LoginStatus)
      ensures songText == "" && artistText == ""
      ensures playIcon == PlayIcon && !buttonsEnabled && ButtonsReflectState()
    {
      isSpotifyRunning := false;
      isSpotifyConnected := false;
      currentPlaybackState := None;
      lastTrackInfo := None;
      reconnectAttempts := 0;
      statusText := InitialStatus;
      songText := "";
      artistText := "";
      playIcon := PlayIcon;
      buttonsEnabled := true;
      accountIconConnected := false;
      tokenCache := cache;
      hasClient := false;
      pollIntervalMs := ActiveIntervalMs;
      new;
      InitializeSpotify(credentials);
      UpdateButtonStates();
    }

    /** `update_button_states`: the playback buttons are enabled exactly when the process runs
        and the widget is connected; the account icon shows the connection. */
    method UpdateButtonStates()
      modifies this`buttonsEnabled, this`accountIconConnected
      ensures ButtonsReflectState()
    {
      buttonsEnabled := isSpotifyRunning && isSpotifyConnected;
      accountIconConnected := isSpotifyConnected;
    }

    /** `show_spotify_login`: the login status with empty track labels, then the buttons. */
    method ShowSpotifyLogin()
      modifies this`statusText, this`songText, this`artistText, this`buttonsEnabled, this`accountIconConnected
      ensures ShowsLogin() && ButtonsReflectState()
    {
      statusText := LoginStatus;
      songText := "";
      artistText := "";
      UpdateButtonStates();
    }

    /** `check_idle_state`: poll every 2 s while the process runs and a playback is known,
        every 5 s otherwise. */
    method CheckIdleState()
      modifies this`pollIntervalMs
      ensures pollIntervalMs == (if isSpotifyRunning && currentPlaybackState.Some? then ActiveIntervalMs else IdleIntervalMs)
    {
      if !isSpotifyRunning || currentPlaybackState.None? {
        pollIntervalMs := IdleIntervalMs;
      } else {
        pollIntervalMs := ActiveIntervalMs;
      }
    }

    /** What `initialize_spotify` leaves behind: with a restorable session the widget holds a
        client and is connected and the labels are untouched; otherwise the login is shown, the
        client is kept, and only a malformed credentials file clears the connection flag. */
    twostate predicate InitializedFrom(credentials: CredentialsFile)
      reads this
    {
      if CanRestoreSession(credentials, tokenCache) then
        && isSpotifyConnected && hasClient
        && statusText == old(statusText) && songText == old(songText) && artistText == old(artistText)
        && buttonsEnabled == old(buttonsEnabled) && accountIconConnected == old(accountIconConnected)
      else
        && hasClient == old(hasClient)
        && isSpotifyConnected == (old(isSpotifyConnected) && !credentials.MalformedCredentials?)
        && ShowsLogin() && ButtonsReflectState()
    }

    /** `initialize_spotify`: restore the session from the token cache, or show the login. */
    method InitializeSpotify(credentials: CredentialsFile)
      requires Valid()
      modifies this`isSpotifyConnected, this`hasClient, this`statusText, this`songText, this`artistText,
               this`buttonsEnabled, this`accountIconConnected
      ensures Valid()
      ensures InitializedFrom(credentials)
    {
      match credentials {
        case NoCredentialsFile =>
          ShowSpotifyLogin();
        case MalformedCredentials =>
          isSpotifyConnected := false;
          ShowSpotifyLogin();
        case CredentialsJson(clientId) =>
          if clientId.None? {
            ShowSpotifyLogin();
          } else if tokenCache.Cached? && tokenCache.info.accessToken.Some? && tokenCache.info.accessToken.value != "" {
            hasClient := true;
            isSpotifyConnected := true;
          } else {
            ShowSpotifyLogin();
          }
      }
    }

    /** `try_reconnect`: below the maximum, count one more attempt and initialize again; at the
        maximum, give up with a notice and reset the counter. */
    method TryReconnect(credentials: CredentialsFile) returns (notice: Option<string>)
      requires Valid()
      modifies this`reconnectAttempts, this`isSpotifyConnected, this`hasClient, this`statusText,
               this`songText, this`artistText, this`buttonsEnabled, this`accountIconConnected
      ensures Valid()
      ensures old(reconnectAttempts) < MaxReconnectAttempts ==>
        && reconnectAttempts == old(reconnectAttempts) + 1
        && notice.None?
        && InitializedFrom(credentials)
      ensures old(reconnectAttempts) >= MaxReconnectAttempts ==>
        && reconnectAttempts == 0
        && notice == Some(ReconnectFailedNotice)
        && State() == old(State()).(reconnectAttempts := 0)
    {
      if reconnectAttempts < MaxReconnectAttempts {
        reconnectAttempts := reconnectAttempts + 1;
        InitializeSpotify(credentials);
        notice := None;
      } else {
        reconnectAttempts := 0;
        notice := Some(ReconnectFailedNotice);
      }
    }

    /** `exchange_code_for_token`: posts the code and verifier, and on a body with
        `access_token` writes the cache, connects and resets the attempt counter. Any failure
        (an exception, no token, a cache file that cannot be written) changes nothing. */
    method ExchangeCodeForToken(creds: AuthFlow.AuthCredentials, code: string, verifier: string,
                                response: TokenResponse, cacheWriteFails: bool)
      returns (request: AuthFlow.Params, notice: string)
      requires Valid()
      modifies this`tokenCache, this`hasClient, this`isSpotifyConnected, this`reconnectAttempts,
               this`buttonsEnabled, this`accountIconConnected
      ensures Valid()
      ensures request == AuthFlow.TokenRequestParams(creds, code, verifier)
      ensures ExchangeSucceeds(response, cacheWriteFails) ==>
        && tokenCache == Cached(response.info)
        && isSpotifyConnected && hasClient && reconnectAttempts == 0
        && ButtonsReflectState()
        && notice == ConnectedNotice
      ensures !ExchangeSucceeds(response, cacheWriteFails) ==>
        State() == old(State()) && notice == AuthFailedNotice
    {
      request := AuthFlow.TokenRequestParams(creds, code, verifier);
      if response.TokenReply? && response.info.accessToken.Some? {
        if cacheWriteFails {
          notice := AuthFailedNotice;
          return;
        }
        tokenCache := Cached(response.info);
        hasClient := true;
        isSpotifyConnected := true;
        reconnectAttempts := 0;
        UpdateButtonStates();
        notice := ConnectedNotice;
      } else {
        notice := AuthFailedNotice;
      }
    }

    /** One run of `poll_for_token`: ask the relay at `url` (none without an attempt id),
        exchange a code when there is one by posting `request`, and say whether to stop, or to
        poll again after two seconds. */
    method PollForToken(codeId: Option<string>, verifier: string, creds: AuthFlow.AuthCredentials,
                        relay: AuthFlow.RelayResponse, response: TokenResponse, cacheWriteFails: bool)
      returns (url: Option<string>, step: AuthFlow.PollStep, request: Option<AuthFlow.Params>,
               notice: Option<string>)
      requires Valid()
      modifies this`tokenCache, this`hasClient, this`isSpotifyConnected, this`reconnectAttempts,
               this`buttonsEnabled, this`accountIconConnected
      ensures Valid()
      ensures step == AuthFlow.PollDecision(codeId, relay)
      ensures url.Some? <==> !step.StopPolling?
      ensures url.Some? ==> url == Some(AuthFlow.PollUrl(creds.redirectUri, codeId.value))
      ensures step.ExchangeCode? && ExchangeSucceeds(response, cacheWriteFails) ==>
        && tokenCache == Cached(response.info)
        && isSpotifyConnected && hasClient && reconnectAttempts == 0
        && ButtonsReflectState()
        && notice == Some(ConnectedNotice)
      ensures !(step.ExchangeCode? && ExchangeSucceeds(response, cacheWriteFails)) ==> State() == old(State())
      ensures step.ExchangeCode? && !ExchangeSucceeds(response, cacheWriteFails) ==>
        notice == Some(AuthFailedNotice)
      ensures !step.ExchangeCode? ==> notice.None?
      // the code the relay handed out is posted together with the verifier of this attempt
      ensures request.Some? <==> step.ExchangeCode?
      ensures step.ExchangeCode? ==> request == Some(AuthFlow.TokenRequestParams(creds, step.code, verifier))
    {
      step := AuthFlow.PollDecision(codeId, relay);
      notice := None;
      request := None;
      url := if step.StopPolling? then None else Some(AuthFlow.PollUrl(creds.redirectUri, codeId.value));
      if step.ExchangeCode? {
        var posted, n := ExchangeCodeForToken(creds, step.code, verifier, response, cacheWriteFails);
        request := Some(posted);
        notice := Some(n);
      }
    }

    /** Only the process flag moved: the tick after which the screen and state stay as they were. */
    twostate predicate OnlyRunningChanged()
      reads this
    {
      State() == old(State()).(running := isSpotifyRunning)
    }

    /** `check_media_players`, one poll tick. `running` is the result of the process scan and
        `query` what `current_playback()` would answer; `effects` is the query if one is made. */
    method CheckMediaPlayers(running: bool, query: PlaybackQuery) returns (effects: seq<Effect>)
      requires Valid()
      modifies this`isSpotifyRunning, this`statusText, this`songText, this`artistText, this`playIcon,
               this`buttonsEnabled, this`accountIconConnected, this`currentPlaybackState, this`lastTrackInfo
      ensures Valid()
      ensures isSpotifyRunning == running
      // gating: no process, or no connection, means no playback query
      ensures !running ==>
        && effects == []
        && statusText == NotRunningStatus && songText == "" && artistText == ""
        && ButtonsReflectState()
        && playIcon == old(playIcon) && currentPlaybackState == old(currentPlaybackState)
        && lastTrackInfo == old(lastTrackInfo)
      ensures running && !isSpotifyConnected ==>
        && effects == []
        && ShowsLogin() && ButtonsReflectState()
        && playIcon == old(playIcon) && currentPlaybackState == old(currentPlaybackState)
        && lastTrackInfo == old(lastTrackInfo)
      ensures running && isSpotifyConnected ==> effects == [Api(CurrentPlayback)]
      // change detection
      ensures running && isSpotifyConnected && PlayingTrack(query) ==>
        var track := query.item.value;
        && lastTrackInfo == Some(TrackInfo(track))
        && (old(lastTrackInfo) == Some(TrackInfo(track)) ==> OnlyRunningChanged())
        && (old(lastTrackInfo) != Some(TrackInfo(track)) ==>
              && statusText == NowPlayingStatus
              && songText == Text.Truncate(track.name, SongLabelLength)
              && artistText == Text.Truncate(track.artists[0], ArtistLabelLength)
              && currentPlaybackState == Some(track) && playIcon == PauseIcon
              && buttonsEnabled == old(buttonsEnabled) && accountIconConnected == old(accountIconConnected))
      // playing without an item
      ensures running && isSpotifyConnected && query == Playing(None) ==>
        && statusText == NoTrackStatus && songText == old(songText) && artistText == old(artistText)
        && playIcon == old(playIcon) && ButtonsReflectState()
        && currentPlaybackState == old(currentPlaybackState) && lastTrackInfo == old(lastTrackInfo)
      // paused or no playback
      ensures running && isSpotifyConnected && (query.Paused? || query.NoPlayback?) ==>
        && statusText == PausedStatus && songText == old(songText) && artistText == old(artistText)
        && playIcon == PlayIcon && ButtonsReflectState()
        && currentPlaybackState == old(currentPlaybackState) && lastTrackInfo == old(lastTrackInfo)
      // a fault falls back to the login labels without touching the connection
      ensures running && isSpotifyConnected && TickFault(query) ==>
        && ShowsLogin() && ButtonsReflectState() && playIcon == old(playIcon)
        && currentPlaybackState == old(currentPlaybackState) && lastTrackInfo == old(lastTrackInfo)
    {
      isSpotifyRunning := running;
      effects := [];
      if !running {
        statusText := NotRunningStatus;
        songText := "";
        artistText := "";
        UpdateButtonStates();
        return;
      }
      if !isSpotifyConnected {
        ShowSpotifyLogin();
        return;
      }
      // Valid() ties the connection to a client, so the guard `self.spotify and
      // self.is_spotify_connected` holds here and its else-branch cannot be taken.
      assert UsesApi();
      effects := [Api(CurrentPlayback)];
      match query {
        case QueryFault =>
          statusText := ErrorStatus;
          ShowSpotifyLogin();
        case NoPlayback =>
          statusText := PausedStatus;
          playIcon := PlayIcon;
        case Paused =>
          statusText := PausedStatus;
          playIcon := PlayIcon;
        case Playing(item) =>
          if item.None? {
            statusText := NoTrackStatus;
          } else if |item.value.artists| == 0 {
            statusText := ErrorStatus;
            ShowSpotifyLogin();
          } else {
            var track := item.value;
            var info := TrackInfo(track);
            if Some(info) != lastTrackInfo {
              statusText := NowPlayingStatus;
              songText := Text.Truncate(track.name, SongLabelLength);
              artistText := Text.Truncate(track.artists[0], ArtistLabelLength);
              currentPlaybackState := Some(track);
              playIcon := PauseIcon;
              lastTrackInfo := Some(info);
            }
            return;
          }
      }
      UpdateButtonStates();
    }

    /** `previous_track`: a notice when the process is not running, the Web API when
        connected (a failure becomes a notice), the OS media key otherwise. */
    method PreviousTrack(callFails: bool) returns (effects: seq<Effect>)
      ensures !isSpotifyRunning ==> effects == [Notice(NotRunningNotice)]
      ensures isSpotifyRunning && UsesApi() ==>
        effects == [Api(PreviousTrackCall)] + FailureNotice(callFails, SkipFailedNotice)
      ensures isSpotifyRunning && !UsesApi() ==>
        effects == [KeyPress(PrevTrackKey)] + FailureNotice(callFails, MediaKeyFailedNotice)
    {
      if !isSpotifyRunning {
        return [Notice(NotRunningNotice)];
      }
      if hasClient && isSpotifyConnected {
        effects := [Api(PreviousTrackCall)] + FailureNotice(callFails, SkipFailedNotice);
      } else {
        effects := [KeyPress(PrevTrackKey)] + FailureNotice(callFails, MediaKeyFailedNotice);
      }
    }

    /** `next_track`, routed as `previous_track`. */
    method NextTrack(callFails: bool) returns (effects: seq<Effect>)
      ensures !isSpotifyRunning ==> effects == [Notice(NotRunningNotice)]
      ensures isSpotifyRunning && UsesApi() ==>
        effects == [Api(NextTrackCall)] + FailureNotice(callFails, SkipFailedNotice)
      ensures isSpotifyRunning && !UsesApi() ==>
        effects == [KeyPress(NextTrackKey)] + FailureNotice(callFails, MediaKeyFailedNotice)
    {
      if !isSpotifyRunning {
        return [Notice(NotRunningNotice)];
      }
      if hasClient && isSpotifyConnected {
        effects := [Api(NextTrackCall)] + FailureNotice(callFails, SkipFailedNotice);
      } else {
        effects := [KeyPress(NextTrackKey)] + FailureNotice(callFails, MediaKeyFailedNotice);
      }
    }

    /** `toggle_playback`: through the Web API it queries the playback and pauses exactly when
        it is playing, starting it otherwise, and the icon follows; through the media key the
        icon simply flips. `callFails` says whether the pause/start call or the key event raised. */
    method TogglePlayback(query: PlaybackQuery, callFails: bool) returns (effects: seq<Effect>)
      modifies this`playIcon
      ensures !isSpotifyRunning ==> effects == [Notice(NotRunningNotice)] && playIcon == old(playIcon)
      ensures isSpotifyRunning && UsesApi() && query.QueryFault? ==>
        effects == [Api(CurrentPlayback), Notice(ControlFailedNotice)] && playIcon == old(playIcon)
      ensures isSpotifyRunning && UsesApi() && !query.QueryFault? ==>
        && effects == [Api(CurrentPlayback), Api(if query.Playing? then PausePlayback else StartPlayback)]
                      + FailureNotice(callFails, ControlFailedNotice)
        && playIcon == (if callFails then old(playIcon) else if query.Playing? then PlayIcon else PauseIcon)
      ensures isSpotifyRunning && !UsesApi() ==>
        effects == [KeyPress(PlayPauseKey)] + FailureNotice(callFails, MediaKeyFailedNotice)
        && playIcon == Flip(old(playIcon))
      ensures Api(PausePlayback) in effects <==> isSpotifyRunning && UsesApi() && query.Playing?
      ensures Api(StartPlayback) in effects <==>
        isSpotifyRunning && UsesApi() && (query.Paused? || query.NoPlayback?)
    {
      if !isSpotifyRunning {
        return [Notice(NotRunningNotice)];
      }
      if hasClient && isSpotifyConnected {
        effects := [Api(CurrentPlayback)];
        if query.QueryFault? {
          effects := effects + [Notice(ControlFailedNotice)];
        } else if query.Playing? {
          effects := effects + [Api(PausePlayback)] + FailureNotice(callFails, ControlFailedNotice);
          if !callFails {
            playIcon := PlayIcon;
          }
        } else {
          effects := effects + [Api(StartPlayback)] + FailureNotice(callFails, ControlFailedNotice);
          if !callFails {
            playIcon := PauseIcon;
          }
        }
      } else {
        effects := [KeyPress(PlayPauseKey)] + FailureNotice(callFails, MediaKeyFailedNotice);
        playIcon := Flip(playIcon);
      }
    }

    /** `disconnect_spotify`: delete the token cache and forget the client, the connection and
        the last playback, then show the login. If deleting the cache raises, nothing changes. */
    method DisconnectSpotify(cacheRemoveFails: bool) returns (notice: string)
      requires Valid()
      modifies this`tokenCache, this`isSpotifyConnected, this`hasClient, this`currentPlaybackState,
               this`lastTrackInfo, this`statusText, this`songText, this`artistText,
               this`buttonsEnabled, this`accountIconConnected
      ensures Valid()
      ensures old(tokenCache) != NoCache && cacheRemoveFails ==>
        State() == old(State()) && notice == DisconnectErrorNotice
      ensures !(old(tokenCache) != NoCache && cacheRemoveFails) ==>
        && tokenCache == NoCache
        && !isSpotifyConnected && !hasClient
        && currentPlaybackState.None? && lastTrackInfo.None?
        && ShowsLogin() && ButtonsReflectState() && !buttonsEnabled
        && notice == DisconnectedNotice
    {
      if tokenCache != NoCache {
        if cacheRemoveFails {
          return DisconnectErrorNotice;
        }
        tokenCache := NoCache;
      }
      isSpotifyConnected := false;
      hasClient := false;
      currentPlaybackState := None;
      lastTrackInfo := None;
      statusText := DisconnectedStatus;
      songText := "";
      artistText := "";
      ShowSpotifyLogin();
      notice := DisconnectedNotice;
    }
  }
}
