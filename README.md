# DecentraWin client core, modelled in Dafny

DecentraWin is a Windows chat and voice client. It talks to its server
through one WebSocket that carries JSON envelopes (`WebSocketMessage`). This
project models the bookkeeping around that socket and proves properties of
it:

- `Models.dfy` holds the envelope record. Each nullable property is an
  `Option`. `Type` is a plain string that defaults to `""`. There is also
  the table of JSON member names.
- `Sockets.dfy` holds `WebSocketService`:
  - the `IsConnected` flag and the abstract socket state;
  - the send guard;
  - the receive loop, as a method over a fixed 8192-byte buffer, proved
    against the recursive specification `ReceiveLoop`.
- `Audio.dfy` holds `AudioService`:
  - the single mute flag that gates both capture and playback;
  - the capture, output and playback-buffer handles;
  - the capture callback's byte copy.
- `Voice.dfy` holds `VoiceService`: the table of peer connections keyed by
  peer name, the voice-channel flag and channel id, and the signalling
  envelopes.
- `Auth.dfy` holds `AuthService`, the signed-in user.
- `Login.dfy` holds `LoginViewModel`: the form, the loading flag, the
  status line and the two submit commands.
- `MainView.dfy` holds `MainViewModel`:
  - the reducer that applies inbound envelopes to the five observable
    collections;
  - the user intents, each of which sends at most one envelope.

Envelopes handed to the socket go into a ghost log, `sent`. Events raised
by the socket service go into a ghost log, `events`. Foreign outcomes become
parameters:

- whether the server accepts the handshake;
- which frames arrive;
- what JSON decoding yields;
- whether an audio device starts;
- the SDP offer or answer a peer connection generates;
- the current time and timestamp parsing;
- the REST results read at start-up.

The model follows the code, which differs from what one might expect:

- `ConnectAsync` has no guard against an existing connection. The guard is
  in the login commands.
- A frame that fails to decode ends the receive loop through the generic
  exception handler. The flag is cleared and `Disconnected` is raised, but
  the socket itself is left as it is. The frame is not skipped.
- The voice table tracks only whether an entry exists. It has no per-call
  state.

## Model

| member | source | states |
|---|---|---|
| `Models.Blank` | DecentraWin/Models/WebSocketMessage.cs:5-81 | an envelope built with only `Type` set has that type, and every other property, read through its declared type, is null |
| `Models.Default` | DecentraWin/Models/WebSocketMessage.cs:7-8 | the parameterless envelope has type `""` (never null) and every other property null |
| `Models.WireName` | DecentraWin/Models/WebSocketMessage.cs:7-79 | each property's JSON member name maps back to that property, so reading a name recovers the property |
| `Models.WireNameInjective` | DecentraWin/Models/WebSocketMessage.cs:7-79 | no two properties share a JSON member name |
| `Models.KindsOfFields` | DecentraWin/Models/WebSocketMessage.cs:7-80 | in every envelope, reading a property through its declared type (`ValueOf`) gives a boolean only for `Muted`, an untyped payload exactly for `Offer`, `Answer` and `Candidate`, and for `Type` a string that is never null |
| `Sockets.Chunk` | DecentraWin/Services/WebSocketService.cs:80-96 | what one read decodes is a prefix of the frame, at most 8192 bytes, and the whole frame when it fits |
| `Sockets.ReceiveLoopAppend` | DecentraWin/Services/WebSocketService.cs:84-103 | while the loop keeps reading, frames are handled in order: the run over `a + b` is the run over `a` followed by the run over `b` |
| `Sockets.ReceiveLoopStops` | DecentraWin/Services/WebSocketService.cs:88-94 | after a close frame, a fault or a decode failure, no later frame is looked at or delivered |
| `Sockets.DisconnectedIsLast` | DecentraWin/Services/WebSocketService.cs:88-114 | `Disconnected` is raised at most once, as the last event, exactly when the loop ended for a reason other than cancellation; the loop never raises `Connected` |
| `Sockets.DeliversInOrder` | DecentraWin/Services/WebSocketService.cs:84-103 | over text frames that each decode to an envelope or to null, the loop keeps reading and raises one `MessageReceived` per envelope, in receive order, and nothing for a null |
| `Sockets.NullIsSkipped` | DecentraWin/Services/WebSocketService.cs:97-102 | a frame that decodes to null raises nothing and the loop goes on with the next frame as if it had not arrived |
| `Sockets.WebSocketService.constructor` | DecentraWin/Services/WebSocketService.cs:11-14 | no socket, no cancellation source, not connected, the default URL |
| `Sockets.WebSocketService.SetServerUrl` | DecentraWin/Services/WebSocketService.cs:22-25 | only the URL changes |
| `Sockets.WebSocketService.ConnectAsync` | DecentraWin/Services/WebSocketService.cs:27-45 | a new socket and token; on acceptance the socket is Open, the flag is set and `Connected` is raised once; on refusal the flag is clear and no event is raised; there is no already-connected guard |
| `Sockets.WebSocketService.DisconnectAsync` | DecentraWin/Services/WebSocketService.cs:47-56 | only an Open socket is affected: token cancelled and the socket no longer Open; when `CloseAsync` completes, the flag is cleared and one `Disconnected` raised; when it throws, the flag and events are kept and the exception is reported to the caller; otherwise nothing changes |
| `Sockets.WebSocketService.SendMessageAsync` | DecentraWin/Services/WebSocketService.cs:58-76 | exactly one envelope is sent when the socket is Open, none otherwise; no other state changes |
| `Sockets.WebSocketService.ReceiveMessagesAsync` | DecentraWin/Services/WebSocketService.cs:78-115 | the loop raises exactly the events of `ReceiveLoop` over the frames; a close or fault leaves the socket not Open; any ending but cancellation clears the flag; nothing happens unless the socket is Open and uncancelled |
| `Auth.AuthService.constructor` | DecentraWin/Services/AuthService.cs:7-8 | no user, no token, not authenticated |
| `Auth.AuthService.SetAuthenticated` | DecentraWin/Services/AuthService.cs:23-27 | records the user and the token; the result is authenticated iff the name is non-empty, so `SetAuthenticated("")` is not |
| `Auth.AuthService.Logout` | DecentraWin/Services/AuthService.cs:29-33 | user and token become null and the service is not authenticated |
| `Audio.AudioService.constructor` | DecentraWin/Services/AudioService.cs:7-10 | no handles and not muted |
| `Audio.AudioService.StartCapture` | DecentraWin/Services/AudioService.cs:15-31 | a new capture handle with the fixed format, recording iff the device starts; the previous handle is dropped without being stopped |
| `Audio.AudioService.StopCapture` | DecentraWin/Services/AudioService.cs:33-41 | without a handle nothing happens; otherwise the handle is stopped, disposed and forgotten |
| `Audio.AudioService.StartPlayback` | DecentraWin/Services/AudioService.cs:43-60 | a new output handle and a new empty buffer with the fixed format and a capacity of two seconds, 192000 bytes; attached when the device starts, playing iff it starts |
| `Audio.AudioService.StopPlayback` | DecentraWin/Services/AudioService.cs:62-70 | the output handle is stopped, disposed and forgotten; the playback buffer stays, so later frames are still queued |
| `Audio.AudioService.PlayAudio` | DecentraWin/Services/AudioService.cs:72-78 | the whole frame is appended to the buffer when one exists and the service is not muted; otherwise the buffer is unchanged |
| `Audio.AudioService.SetMuted` | DecentraWin/Services/AudioService.cs:80-83 | the mute flag becomes the argument; no handle changes |
| `Audio.AudioService.OnDataAvailable` | DecentraWin/Services/AudioService.cs:85-93 | a frame is raised iff not muted and some bytes were recorded; it is a new array equal to the first `BytesRecorded` bytes of the driver's buffer |
| `Voice.PeerConnection.Close` | DecentraWin/Services/VoiceService.cs:65 | the handle is closed; its descriptions and candidates are kept |
| `Voice.JoinVoiceEnvelope` | DecentraWin/Services/VoiceService.cs:32-37 | type `join_voice`, carrying exactly the server and channel ids |
| `Voice.LeaveVoiceEnvelope` | DecentraWin/Services/VoiceService.cs:55-58 | type `leave_voice` and nothing else |
| `Voice.OfferEnvelope` | DecentraWin/Services/VoiceService.cs:83-88 | type `webrtc_offer`, carrying exactly the target and the offer |
| `Voice.AnswerEnvelope` | DecentraWin/Services/VoiceService.cs:109-114 | type `webrtc_answer`, carrying exactly the target and the answer |
| `Voice.IceEnvelope` | DecentraWin/Services/VoiceService.cs:168-173 | type `webrtc_ice`, carrying exactly the target and the candidate |
| `Voice.VoiceService.constructor` | DecentraWin/Services/VoiceService.cs:18-23 | an empty table, outside any voice channel |
| `Voice.VoiceService.JoinVoiceChannelAsync` | DecentraWin/Services/VoiceService.cs:25-46 | in the channel with its id recorded, one `join_voice` sent when the socket is Open, both devices started, a fresh empty 192000-byte playback buffer attached, the mute flag kept, the table unchanged; the socket, its cancellation token, the server URL and the event log are kept |
| `Voice.VoiceService.LeaveVoiceChannelAsync` | DecentraWin/Services/VoiceService.cs:48-73 | out of the channel with no id, one `leave_voice` sent when the socket is Open, both devices stopped, every stored handle closed however many there were, the table empty, the playback buffer and mute flag kept; the socket, its cancellation token, the server URL and the event log are kept |
| `Voice.VoiceService.CreatePeerConnection` | DecentraWin/Services/VoiceService.cs:160-184 | a new handle filed under the peer id, replacing any earlier handle without closing it; other keys unchanged |
| `Voice.VoiceService.OnIceCandidate` | DecentraWin/Services/VoiceService.cs:164-175 | a non-null candidate sends one `webrtc_ice` to the peer id the handle captured when created; a null one sends nothing; the socket, its cancellation token, the server URL and the event log are kept |
| `Voice.VoiceService.CallUserAsync` | DecentraWin/Services/VoiceService.cs:75-97 | a new handle for the target holding the offer, one `webrtc_offer` to the target, both devices started with a fresh empty 192000-byte playback buffer, the mute flag kept; other keys unchanged; the socket, its cancellation token, the server URL and the event log are kept |
| `Voice.VoiceService.HandleOfferAsync` | DecentraWin/Services/VoiceService.cs:99-123 | a new handle for the caller holding the offer and the answer, one `webrtc_answer` to the caller, both devices started with a fresh empty 192000-byte playback buffer, the mute flag kept; the socket, its cancellation token, the server URL and the event log are kept |
| `Voice.VoiceService.HandleAnswerAsync` | DecentraWin/Services/VoiceService.cs:125-138 | only an existing handle takes the answer; the table keeps its keys and nothing is sent |
| `Voice.VoiceService.HandleIceCandidateAsync` | DecentraWin/Services/VoiceService.cs:140-153 | only an existing handle takes the candidate; the table keeps its keys and nothing is sent |
| `Voice.VoiceService.SetMuted` | DecentraWin/Services/VoiceService.cs:155-158 | forwards to the audio service's single mute flag |
| `Login.AuthEnvelope` | DecentraWin/ViewModels/LoginViewModel.cs:74-79 | type `auth`, carrying exactly the user name and the password |
| `Login.SignUpEnvelope` | DecentraWin/ViewModels/LoginViewModel.cs:102-108 | type `signup`, carrying exactly the user name, the password and the invite code |
| `Login.LoginViewModel.constructor` | DecentraWin/ViewModels/LoginViewModel.cs:12-16 | empty fields, empty status, not loading |
| `Login.LoginViewModel.CanSubmit` | DecentraWin/ViewModels/LoginViewModel.cs:58-59 | the commands are disabled while loading or while the name or the password is whitespace-only |
| `Login.LoginViewModel.LoginAsync` | DecentraWin/ViewModels/LoginViewModel.cs:62-88 | loading with "Connecting...", commands disabled; connect only when not connected, leaving the socket Open iff the server accepts; then one `auth` sent when Open, so an accepted first login sends the credentials; on an exception, not loading and "Connection error: " plus the message, with the socket and its token untouched; the server URL is never changed |
| `Login.LoginViewModel.SignUpAsync` | DecentraWin/ViewModels/LoginViewModel.cs:90-117 | the same with "Creating account...", one `signup` (sent on an accepted first connect) and "Sign up error: " |
| `Login.LoginViewModel.OnAuthSuccess` | DecentraWin/ViewModels/LoginViewModel.cs:119-125 | the form's user is signed in with no token, loading stops, status "Login successful!", `LoginSuccessful` raised once |
| `Login.LoginViewModel.OnAuthFailed` | DecentraWin/ViewModels/LoginViewModel.cs:127-131 | loading stops and the status is exactly the given message |
| `MainView.Reduce` | DecentraWin/ViewModels/MainViewModel.cs:224-306 | an unknown type changes nothing; each listing type replaces only its own collection with the payload, or empties it when null; only `message`, `history` and `system` touch the messages |
| `MainView.ChatEnvelopeAppends` | DecentraWin/ViewModels/MainViewModel.cs:226-237 | a `message` with non-empty content and sender appends exactly one message carrying them and leaves the rest; otherwise nothing changes |
| `MainView.HistoryReplacesMessages` | DecentraWin/ViewModels/MainViewModel.cs:239-248 | a `history` makes the messages exactly its records in order, or empty when null; no other collection changes |
| `MainView.SystemEnvelopeAppends` | DecentraWin/ViewModels/MainViewModel.cs:294-305 | a `system` with content appends one message from "System" of type "system"; without content nothing changes |
| `MainView.ReplacingIsIdempotent` | DecentraWin/ViewModels/MainViewModel.cs:239-292 | applying a replacing envelope twice is the same as applying it once |
| `MainView.ListingsTrackLatest` | DecentraWin/ViewModels/MainViewModel.cs:250-292 | after any run of envelopes each listing shows the payload of the latest envelope of its own type, whatever came between |
| `MainView.ChatEnvelope` | DecentraWin/ViewModels/MainViewModel.cs:159-163 | type `message`, carrying exactly the content |
| `MainView.SwitchServerEnvelope` | DecentraWin/ViewModels/MainViewModel.cs:168-175 | type `switch_server`, carrying exactly the server id |
| `MainView.SwitchChannelEnvelope` | DecentraWin/ViewModels/MainViewModel.cs:177-184 | type `switch_channel`, carrying exactly the channel id |
| `MainView.SwitchDmEnvelope` | DecentraWin/ViewModels/MainViewModel.cs:186-193 | type `switch_dm`, carrying exactly the thread id |
| `MainView.CreateServerEnvelope` | DecentraWin/ViewModels/MainViewModel.cs:198-202 | type `create_server`, carrying exactly the name |
| `MainView.MainViewModel.constructor` | DecentraWin/ViewModels/MainViewModel.cs:16-27 | empty collections, no selections, the "servers" view, empty input, not in voice |
| `MainView.MainViewModel.RefillMessages` | DecentraWin/ViewModels/MainViewModel.cs:240-247 | after the clear-and-add loop the messages are exactly the records, in order |
| `MainView.MainViewModel.RefillServers` | DecentraWin/ViewModels/MainViewModel.cs:251-258 | after the clear-and-add loop the servers are exactly the records, in order |
| `MainView.MainViewModel.RefillChannels` | DecentraWin/ViewModels/MainViewModel.cs:262-269 | after the clear-and-add loop the channels are exactly the records, in order |
| `MainView.MainViewModel.RefillFriends` | DecentraWin/ViewModels/MainViewModel.cs:273-280 | after the clear-and-add loop the friends are exactly the records, in order |
| `MainView.MainViewModel.RefillDms` | DecentraWin/ViewModels/MainViewModel.cs:284-291 | after the clear-and-add loop the threads are exactly the records, in order |
| `MainView.MainViewModel.InitializeAsync` | DecentraWin/ViewModels/MainViewModel.cs:109-152 | when a user name is set, each non-null listing fetched replaces its collection; a null one, or no user, leaves it as it was |
| `MainView.MainViewModel.OnWebSocketMessageReceived` | DecentraWin/ViewModels/MainViewModel.cs:220-308 | the collections become `Reduce` of what they were; nothing else changes |
| `MainView.MainViewModel.CanSendMessage` | DecentraWin/ViewModels/MainViewModel.cs:98 | Send is enabled only for a non-empty input |
| `MainView.MainViewModel.SendMessageAsync` | DecentraWin/ViewModels/MainViewModel.cs:154-166 | when Send is disabled (`CanSendMessage` false: whitespace-only input) nothing is sent and the input is kept; otherwise one `message` carrying the input is sent when Open, and the input is cleared, disabling Send; the socket, its cancellation token, the server URL and the event log are kept |
| `MainView.MainViewModel.SetSelectedServer` | DecentraWin/ViewModels/MainViewModel.cs:29-39 | the selection is stored; one `switch_server` with its id is sent only when it changed and is not null; the socket, its cancellation token, the server URL and the event log are kept |
| `MainView.MainViewModel.SetSelectedChannel` | DecentraWin/ViewModels/MainViewModel.cs:41-51 | the selection is stored; one `switch_channel` with its id is sent only when it changed and is not null; the socket, its cancellation token, the server URL and the event log are kept |
| `MainView.MainViewModel.SetSelectedDm` | DecentraWin/ViewModels/MainViewModel.cs:53-63 | the selection is stored; one `switch_dm` with its id is sent only when it changed and is not null; the socket, its cancellation token, the server URL and the event log are kept |
| `MainView.MainViewModel.ShowServers` | DecentraWin/ViewModels/MainViewModel.cs:99 | the view becomes "servers" |
| `MainView.MainViewModel.ShowFriends` | DecentraWin/ViewModels/MainViewModel.cs:100 | the view becomes "friends" |
| `MainView.MainViewModel.CreateServerAsync` | DecentraWin/ViewModels/MainViewModel.cs:195-203 | one `create_server` named "New Server" is sent when Open; the socket, its cancellation token, the server URL and the event log are kept |
| `MainView.MainViewModel.JoinVoiceAsync` | DecentraWin/ViewModels/MainViewModel.cs:205-212 | with a channel and a server selected, joins that channel and sets the voice flag; otherwise nothing is sent and the flag is unchanged; the Join Voice guard (a "voice" channel selected) does not ask for a server, so an enabled join with no server does nothing, and a join on a non-voice channel goes ahead; a join starts both devices (fresh handles, recording and playing iff they start) with a fresh empty 192000-byte buffer, while a skipped one keeps the channel id and audio handles; the peer table, mute flag, socket, token, URL and event log are kept |
| `MainView.MainViewModel.LeaveVoiceAsync` | DecentraWin/ViewModels/MainViewModel.cs:214-218 | leaves the channel, empties the peer table and always clears the voice flag, which disables Leave Voice (`CanLeaveVoice`); every stored handle is closed, both devices are stopped, disposed and released, the channel id cleared; the buffer, mute flag, socket, token, URL and event log are kept |
| `MainView.MainViewModel.ToggleMute` | DecentraWin/ViewModels/MainViewModel.cs:104 | the mute flag becomes "not in a voice channel", whatever it was before; the device handles and buffer are unchanged |

## Left out

- JSON serialisation and `Encoding.UTF8` are not modelled. Decoding is the parameter `decode`. A sent envelope is logged as a value, not as bytes. No serialiser round trip is claimed.
- Password hashing (`HashPassword`, `VerifyPassword`, BCrypt) is foreign cryptography and is not modelled.
- `ApiService` (HTTP) is not part of this model. Its results reach `InitializeAsync` as `Option` parameters.
- Concurrency is not modelled: `Dispatcher.Invoke`, `Task.Run`, fire-and-forget sends and callbacks on other threads. Each event is one sequential step.
- `Sockets.WebSocketService.ConnectAsync` does not start the receive loop. `ReceiveMessagesAsync` is called separately, over the frames that arrive.
- `Sockets.WebSocketService.ReceiveMessagesAsync` assumes a faulted read leaves the socket not Open. That is the socket library's behaviour, not this code's. A `Cancelled` frame ends the loop and changes no state. Fragmented frames and `EndOfMessage` are not modelled. A text message longer than 8192 bytes is truncated to its first 8192 bytes (`Chunk`), whereas the source splits it: the rest is returned by the next read and decoded as a message of its own, usually a malformed one that ends the loop.
- `Sockets.WebSocketService.DisconnectAsync`: an exception from `CloseAsync` is a boolean outcome; its message is not modelled, and the socket is then taken to be no longer Open, which is the socket library's behaviour for an aborted socket.
- `Sockets.WebSocketService.SendMessageAsync`: an exception from the transport is caught and logged and nothing else happens. The model does not tell a failed send from a successful one; both are logged in `sent`.
- `Audio.BufferedWaveProvider.AddSamples`: the buffer is append-only. What the device library does when it is full (drop or throw) is not modelled.
- `Audio.AudioService.StartCapture`: hooking `DataAvailable` is implicit. `OnDataAvailable` is called directly with the driver's buffer.
- `OnAudioCaptured` has an empty body and is not modelled.
- WebRTC internals are not modelled: SDP generation, ICE gathering and connection-state logging. A peer connection is a handle with ghost fields. The generated offer and answer are parameters.
- Voice methods: an exception inside their `try` blocks is not modelled. The foreign calls that could throw are abstract here.
- `Login.LoginViewModel.LoginAsync`: an exception is modelled as arising before the connect and the send. A failure in the middle of the send is not modelled.
- `Login.LoginViewModel.SignUpAsync`: an exception is modelled as arising before the connect and the send, as for `LoginAsync`.
- Property-change notification (`SetProperty`) is not modelled. A selection counts as changed when the new value differs structurally from the old one. C# compares these records by reference, so two distinct but equal records count as unchanged here.
- `DateTime.TryParse` and `DateTime.Now` are parameters. `parse` and `now` stand for them.
- The window code and the routing of server auth replies to `OnAuthSuccess` and `OnAuthFailed` are not modelled. That routing lives in the window and application wiring.
