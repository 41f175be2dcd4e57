# Spotify media widget: controller, PKCE flow and hotkey table in Dafny

This project models the logic core of a desktop media widget that shows and controls Spotify
playback:

- the connection and playback controller of `MediaWidget` (`media_widget.py`): the poll tick that
  reconciles the displayed track with the Web API, start-up from a cached token, bounded
  reconnection, the end of the PKCE authorization flow (relay polling and token exchange),
  disconnection, and the previous / play-pause / next commands with their fallback to OS media keys;
- the pure helpers beside it: label truncation, the S256 code challenge of RFC 7636 (section 4.2),
  built on the base64url encoding of RFC 4648 (section 5) with the padding stripped as Appendix A of
  RFC 7636 asks, the authorization and token request parameters, and the volume-hotkey clamp;
- the global hotkey table of `HotkeyManager` (`hotkey_manager.py`): defaults, persistence, start-up
  registration and the in-place update of one binding.

Files and modules:

| file | module | contents |
|---|---|---|
| `wrappers.dfy` | `Wrappers` | `Option` |
| `text.dfy` | `Text` | `truncate_text`, Python's `s[:k]` and `str.rstrip` |
| `base64url.dfy` | `Base64Url` | base64url encoder (padded, as `urlsafe_b64encode`), its inverse on unpadded text, round trip |
| `auth_flow.dfy` | `AuthFlow` | code challenge, request parameters, relay URL, the decision of each relay poll |
| `media_widget.dfy` | `Widget` | the `MediaWidget` class, its inputs and effects, the volume clamp |
| `hotkey_manager.dfy` | `Hotkeys` | the `HotkeyManager` class and the default table |
| `scenarios.dfy` | `Scenarios` | client methods replaying end-to-end runs from the contracts alone |

How the outside world appears in the model:

- the process scan is the `running` argument of a tick;
- `current_playback()` is a `PlaybackQuery`: `QueryFault | NoPlayback | Paused | Playing(item)`;
- the relay's answer is a `RelayResponse` (an exception, or a status with an optional `code`);
- the token endpoint's answer is a `TokenResponse` (an exception, or a body with or without `access_token`);
- the credentials file and the token cache file are `CredentialsFile` and `TokenCache` values; the
  cache is a field of the widget because the widget writes it on login and deletes it on logout;
- commands return `Effect`s: a tooltip `Notice`, an `Api` call, or a `KeyPress` of a media key; a
  `callFails` argument says whether that call raised;
- SHA-256 is a function argument `string -> Digest` (32 bytes), left uninterpreted;
- the OS keyboard hook is the set `registered` of hooked combinations plus an `accepts` predicate
  saying which combination strings the hook library can register; unhooking a combination fails
  exactly when it is not registered.

Labels are modelled as plain fields holding the last text written to them. Where the source writes a
label twice in one callback (the error branch of the tick writes "Error connecting to Spotify" and
then calls `show_spotify_login`, which writes "Spotify not connected"), the model keeps the second
text. On screen the labels are `FadeLabel`s (media_widget.py:53-65), which differ: see "Left out".

The object invariant `MediaWidget.Valid()` keeps `0 <= reconnectAttempts <= 3` and says that the
widget is only connected while it holds a client. A consequence, checked in `CheckMediaPlayers`, is
that the branch of the tick that prints "Spotify is not connected" (media_widget.py:703-705) can
never be taken.

In these places the code does something a reader may not expect; the model follows the code:

- the reconnect counter also resets to 0 when the attempts are exhausted (media_widget.py:456), not
  only on a successful connection;
- a fault of the playback query does not clear the connection or start the reconnect timer; it only
  shows the login labels (media_widget.py:706-711). `reconnect_timer` is never started in the code,
  so `TryReconnect` is modelled as an explicit step;
- the "now playing" path of the tick returns before `update_button_states` (media_widget.py:697), so
  the buttons keep their state on that path;
- `last_track_info` survives pauses and the process stopping, so resuming the same track is not seen
  as a change and the status keeps reading "Spotify is paused" (`Scenarios.ResumeSameTrack`).

## Model

| member | source | states |
|---|---|---|
| Text.PrefixTo | media_widget.py:716 | Python's `s[:k]`: a prefix of `s` whose length counts from the end for negative `k`, clamped to the string |
| Text.Truncate | media_widget.py:713-717 | text within the limit is returned unchanged; longer text becomes a prefix of itself followed by "...", exactly `maxLength` long when the limit is at least 3 and never longer than the limit |
| Text.TruncateIdempotent | media_widget.py:713-717 | with a limit of at least 3, truncating twice equals truncating once |
| Text.TruncateShortLimitNotIdempotent | media_widget.py:713-717 | below a limit of 3 the result overflows the limit and a second truncation changes it again |
| Text.RStrip | media_widget.py:485 | `rstrip(c)`: the result is a prefix of the input that does not end in `c`, and everything after it is `c` |
| Text.RStripAppended | media_widget.py:485 | stripping a run of `c` appended to a text that does not end in `c` gives back exactly that text |
| Text.RStripIdempotent | media_widget.py:594 | stripping twice equals stripping once |
| Base64Url.CharOf | media_widget.py:485 | every sextet is written as a character of the URL-safe alphabet |
| Base64Url.SextetOf | media_widget.py:485 | the alphabet is invertible: exactly its characters have a value, and that value spells the character back |
| Base64Url.SextetsOf | media_widget.py:485 | `n` bytes give `ceil(4n/3)` six-bit groups |
| Base64Url.BytesOf | media_widget.py:485 | regrouping succeeds unless one sextet is left over, and yields three bytes per four sextets |
| Base64Url.BytesOfSextetsOf | media_widget.py:485 | regrouping the sextets of any byte string gives the bytes back |
| Base64Url.Spell | media_widget.py:485 | one alphabet character per sextet, in order |
| Base64Url.Unspell | media_widget.py:485 | reading fails exactly when some character is outside the alphabet |
| Base64Url.UnspellSpell | media_widget.py:485 | reading the spelling of sextets gives the sextets back |
| Base64Url.EncodeTestVectors | media_widget.py:485 | the encoder gives the test vectors of section 10 of RFC 4648 for one, two and three bytes (`Zg==`, `Zm8=`, `Zm9v`) |
| Base64Url.EncodeTwoGroups | media_widget.py:485 | the six bytes of `foobar` encode to `Zm9vYmFy`, the two-group test vector of section 10 of RFC 4648 |
| Base64Url.EncodeUrlSafeVectors | media_widget.py:485 | the encoder uses `-` and `_` for the values 62 and 63 (`-_8=`, `-_-_`) |
| Base64Url.Encode | media_widget.py:485 | `urlsafe_b64encode` output is `4 * ceil(n/3)` characters, each from the URL-safe alphabet or `=` |
| Base64Url.RStripPaddingIsSpelling | media_widget.py:485 | stripping `=` from the padded encoding leaves exactly the alphabet characters of the sextets |
| Base64Url.EncodeUnpadded | media_widget.py:485 | `urlsafe_b64encode(b).rstrip('=')` is exactly the alphabet spelling of the sextets of `b`, `ceil(4n/3)` characters long |
| Base64Url.EncodeUnpaddedRoundTrip | media_widget.py:485 | the unpadded encoding has `ceil(4n/3)` URL-safe characters and decodes back to the input bytes |
| AuthFlow.CodeChallenge | media_widget.py:482-486 | the challenge of a 32-byte digest is 43 URL-safe characters without `=` and decodes back to the digest |
| AuthFlow.GenerateCodeChallenge | media_widget.py:482-486 | for any verifier: 43 characters, no `=`, and the digest of the verifier is recoverable from it |
| AuthFlow.CodeChallengeInjective | media_widget.py:482-486 | two digests with the same challenge are equal |
| AuthFlow.LookupFirst | media_widget.py:562-570 | a parameter whose name no earlier parameter carries is what a lookup of that name finds |
| AuthFlow.Lookup | media_widget.py:562-570 | a lookup finds a value exactly when some parameter has that name |
| AuthFlow.AuthorizationParams | media_widget.py:561-570 | the authorization URL carries the seven parameters in order, with `response_type=code`, the `scope` `user-read-playback-state user-modify-playback-state` that the API calls of the commands need, `code_challenge_method=S256`, the challenge, the attempt id as `state`, and the client id and redirect URI of the credentials |
| AuthFlow.TokenRequestParams | media_widget.py:629-636 | the token request carries `grant_type=authorization_code`, the code and the verifier, for the same client and redirect URI |
| AuthFlow.RequestsAreBound | media_widget.py:551-570 | the challenge sent for authorization is the transform of the verifier later sent with the code, for the same client and redirect URI |
| AuthFlow.PollUrl | media_widget.py:594-598 | the polled URL is the redirect URI with trailing slashes removed, then `/check-code?id=` and the attempt id |
| AuthFlow.PollDecision | media_widget.py:587-624 | polling stops exactly when there is no attempt id, exchanges exactly on status 200 with a `code`, and otherwise retries after 2000 ms |
| Widget.TrackInfo | media_widget.py:684-686 | the change-detection key is the title, then `" - "`, then the first artist's name |
| Widget.TrackInfoConflates | media_widget.py:684-689 | change detection compares `"song - artist"`, so two different tracks can be taken for the same one |
| Widget.VolumeUp | media_widget.py:893 | the volume-up hotkey adds 5 but never exceeds 100 |
| Widget.VolumeDown | media_widget.py:894 | the volume-down hotkey subtracts 5 but never goes below 0 |
| Widget.VolumeKeysStayInRange | media_widget.py:893-894 | from a slider value in 0..100 both keys ask for a volume in 0..100 |
| Widget.MediaWidget.constructor | media_widget.py:148-188 | start-up is connected exactly when the credentials have a client id and the cache a non-empty token; counter 0, poll interval 2000 ms, empty song and artist labels, play icon, buttons disabled |
| Widget.MediaWidget.UpdateButtonStates | media_widget.py:464-475 | the playback buttons are enabled exactly when the process runs and the widget is connected; the account icon shows the connection |
| Widget.MediaWidget.ShowSpotifyLogin | media_widget.py:526-531 | the login status with empty song and artist labels, and the buttons updated |
| Widget.MediaWidget.CheckIdleState | media_widget.py:441-446 | the poll interval is 2000 ms while the process runs and a playback is known, 5000 ms otherwise |
| Widget.MediaWidget.InitializeSpotify | media_widget.py:488-524 | a restorable session connects with a client and leaves the labels alone; otherwise the login is shown, and only malformed credentials clear the connection flag |
| Widget.MediaWidget.TryReconnect | media_widget.py:448-458 | below 3 attempts the counter grows by one and initialization runs again; at 3 it resets to 0 with a failure notice and nothing else changes; the counter stays in 0..3 |
| Widget.MediaWidget.ExchangeCodeForToken | media_widget.py:626-658 | only a body with `access_token` whose cache write succeeds writes the cache, connects, resets the counter to 0 and updates the buttons; any failure changes nothing |
| Widget.MediaWidget.PollForToken | media_widget.py:585-624 | the URL polled is the redirect URI without trailing slashes, then `/check-code?id=` and the attempt id, and there is none exactly when polling stops; the next step is the poll decision; a token request is posted exactly when a code is exchanged, and it carries that code and the verifier of the attempt; the widget connects only through a successful exchange, which also updates the buttons and reports the connection; a failed exchange shows the failure notice and leaves the widget unchanged |
| Widget.MediaWidget.CheckMediaPlayers | media_widget.py:660-711 | no process: "not running", empty labels, no query; no connection: login labels, no query; a track whose `"song - artist"` equals the last one changes nothing, a different one updates labels, playback, icon and last info once; paused or empty playback shows "paused" and the play icon; a fault shows the login labels; the connection never changes |
| Widget.MediaWidget.PreviousTrack | media_widget.py:719-733 | not running: one notice only; connected with a client: the API call only (a failure adds a notice); otherwise the previous-track media key only |
| Widget.MediaWidget.NextTrack | media_widget.py:763-777 | routed as the previous command, with the next-track call and key |
| Widget.MediaWidget.TogglePlayback | media_widget.py:735-761 | not running: a notice only; via the API it queries first and pauses exactly when the playback is playing, starts it otherwise, and sets the icon on success; via the media key the icon flips |
| Widget.MediaWidget.DisconnectSpotify | media_widget.py:859-886 | deletes the cache, clears connection, client, playback and last track info, and shows the login with disabled buttons; if deleting the cache fails nothing changes |
| Hotkeys.DefaultTable | hotkey_manager.py:21-27 | the default table binds exactly the five handled actions, to five different combinations |
| Hotkeys.StartRegistrations | hotkey_manager.py:38-48 | the combinations `start` hooks from one action on, in order up to the first missing or refused one, are all combinations of the table |
| Hotkeys.StartRegistersOnlyBindings | hotkey_manager.py:36-48 | `start` registers only accepted combinations that the table binds to one of the five actions |
| Hotkeys.StartRegistersAll | hotkey_manager.py:36-44 | when every action is bound and accepted, `start` registers the combination of every action |
| Hotkeys.StartStopsAtFirstFailure | hotkey_manager.py:38-48 | when an action is missing from the table or its combination is refused, `start` registers exactly the combinations of the actions before it and none after |
| Hotkeys.StartRegistersDefaults | hotkey_manager.py:21-44 | with the default table and a hook that accepts it, `start` registers exactly the five default combinations |
| Hotkeys.HotkeyManager.constructor | hotkey_manager.py:13-17 | a new manager holds the saved table, or the default table when nothing was saved, with nothing registered |
| Hotkeys.HotkeyManager.LoadHotkeySettings | hotkey_manager.py:19-30 | with nothing saved the table is exactly the default table; otherwise it is the saved table |
| Hotkeys.HotkeyManager.SaveHotkeySettings | hotkey_manager.py:32-34 | after a save the persisted table equals the one in memory |
| Hotkeys.HotkeyManager.RegisterAction | hotkey_manager.py:40 | one registration succeeds exactly when the action is bound and its combination accepted, and then adds that combination |
| Hotkeys.HotkeyManager.Start | hotkey_manager.py:36-48 | the registered set grows by the combinations of the actions up to the first missing or refused one |
| Hotkeys.HotkeyManager.Stop | hotkey_manager.py:50-56 | nothing stays registered |
| Hotkeys.HotkeyManager.UpdateHotkey | hotkey_manager.py:83-99 | succeeds exactly when the old binding can be unhooked, the action has a handler and the new combination is accepted; then only that action's entry changes and the table is persisted; on failure table and saved table are unchanged, and an old binding already unhooked stays unhooked; persistence is preserved |

## Left out

- Rendering, layout, stylesheets, animations (`FadeLabel`, `ModernButton`, `CloseButton`,
  `GlassFrame`, `_create_ui`), mouse dragging, `show_account_menu` and `show_tooltip`: tooltips are
  `Notice` effects or returned messages, labels are last-write-wins fields.
- `FadeLabel.setText` (media_widget.py:53-65) ignores a text equal to the one currently on screen
  and shows a new text only after a 300 ms fade. So the screen can differ from the last text
  written. For example, the status already reads "Spotify not connected" and a tick's query
  faults: the write of "Error connecting to Spotify" starts a fade, the following write of
  "Spotify not connected" is skipped, and the screen ends on "Error connecting to Spotify". The
  model's label fields hold the last text written, not what the screen shows.
- The optimistic icon flip of the media-key fallback compares rendered pixmaps; it is modelled as
  flipping between the two icons.
- The volume hotkeys call `set_volume` with a value computed from the slider (media_widget.py:893-894), but
  `set_volume` does not move the slider; two presses in a row ask for the same volume. Only the clamp is
  modelled, not the system volume.
- Logging, and the `print(response)` of `poll_for_token` (media_widget.py:599), have no effect on the
  state and are left out.
- The process scan is a boolean argument; an exception raised by the scan itself is not modelled.
- `requests`, spotipy, JSON file reading and writing, `QSettings`, `webbrowser.open` and
  `urlencode` are inputs or outputs as listed above; the URL encoding of the parameter list is not
  modelled.
- `generate_code_verifier` (`secrets.token_urlsafe`) is random and `code_id` comes from the clock;
  both are arguments. SHA-256 and the UTF-8 encoding of the verifier are an uninterpreted argument.
- `start_spotify_auth` as a whole (file checks, settings writes, opening the browser) is left out;
  its parameter list is `AuthFlow.AuthorizationParams`.
- Timers are not modelled: the poll interval is a field, the relay retry is the returned
  `RetryAfter(2000)`, and the never-started `reconnect_timer` is not represented.
- `set_volume` (pycaw, scalar `value / 100.0`), `send_media_key` (`win32api.keybd_event`) and
  `set_startup_with_windows` (`winreg`) are OS calls; only the clamp of the volume hotkeys and the
  media-key effect are modelled.
- Hotkey callbacks run on the keyboard library's thread and reach the widget as Qt signals; the
  model treats every operation as one atomic step.
- The keyboard hook is a set of combinations: registering the same combination for two actions, and
  the multiplicity that follows, are not modelled.
- `hotkey_settings_dialog.py` (its `reset_hotkey` calls `update_hotkey` with the default table) and
  `build.py` are not part of this model.
