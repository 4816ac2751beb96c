# Lightning monitor core, modelled in Dafny

This project models the logic of a small macOS menu-bar lightning monitor.
The monitor has three parts:

- It opens a WebSocket to a Blitzortung server and sends the start-streaming handshake `{"a":111}`.
- It expands each compressed text frame with Blitzortung's LZW variant.
- It shows the connection status and the 100 most recent strikes.

Three parts of the source are modelled:

- **The LZW expansion** (`src/blitzortung.rs`): the function `Blitzortung.Decode`, also written as the loop the source runs (`DecodeLoop`). Module `LzwProofs` adds a reference definition of each symbol's phrase that needs no dictionary. It proves that the decoder computes that reference, and what follows from it.
- **The connection worker and its manager** (`src/websocket.rs`):
  - The socket is reduced to a flag plus the frames written to it.
  - What the network decides is an input: `Dial` for each handshake and `Read` for each wait for a frame.
  - Parsing an inbound text frame as a structured message is an oracle `parse`.
  - One worker-loop iteration (`Iterate`) applies every queued command in FIFO order, then reads at most one frame, and only if it is connected.
  - The manager (`Link`) is the two FIFO channels plus the worker.
  - Status reports carry the compact JSON text serde_json writes for the `json!` objects in the source: keys in ascending order, strings escaped (module `Json`).
- **The application state machine** (`src/trrpy.rs`):
  - Popup visibility drives connect and disconnect.
  - Status envelopes drive the status indicator, and a Connected status sends the handshake.
  - Status payloads are classified by a `Reading`: `AsWritten` searches the branches in the source's order, `Corrected` in the order they evidently intend (see Findings). Every theorem about processing envelopes holds for both.
  - `raw_text` envelopes are expanded, parsed as strikes (an oracle) and kept in a window of at most 100 lines.

Module `Scenarios` runs the three parts together, for example a connection that succeeds and delivers one frame.

`src/trrpy.rs` and `src/websocket.rs` do not agree on the message type:

- `trrpy.rs` reads fields `mtype` and `payload` (bytes) and calls `send_raw`.
- `websocket.rs` declares `message_type` and `data` (a JSON value) and has no raw send.

The model follows both files through one envelope, `{kind, payload}`, and a `SendRaw` command:

- Status and binary envelopes carry the JSON text of the `data` object the worker builds.
- A `raw_text` envelope carries the frame's text itself. That is what `handle_lightning_message` expands. `websocket.rs` would wrap it as `{"text": ...}`.
- `SendRaw` writes its bytes to the socket when connected, as `send_message` does for a message, and is dropped otherwise.

## Model

| member | source | states |
|---|---|---|
| Blitzortung.HandshakeIsAsciiJson | src/blitzortung.rs:13 | the handshake constant is exactly the nine ASCII bytes of `{"a":111}` |
| Blitzortung.Start | src/blitzortung.rs:66-69 | after the first symbol the output and previous phrase are exactly that symbol, the dictionary is empty and the next code is 256; the state is well formed |
| Blitzortung.Resolve | src/blitzortung.rs:74-82 | a code below 256 stands for itself; an unassigned code stands for the previous phrase plus its own first symbol; the phrase is never empty |
| Blitzortung.Step | src/blitzortung.rs:71-90 | one iteration assigns exactly the next code, to the previous phrase plus the new phrase's first symbol, leaves other entries alone, and appends the new phrase to the output |
| Blitzortung.Run | src/blitzortung.rs:71-91 | after any prefix the decoder state is well formed: non-empty previous phrase and non-empty entries |
| Blitzortung.Decode | src/blitzortung.rs:57-94 | the empty input expands to the empty string; otherwise the output starts with the first input symbol; no input fails |
| Blitzortung.RunKeepsFirst | src/blitzortung.rs:66-68 | the first input symbol stays the first output symbol through every iteration |
| Blitzortung.DecodeLoop | src/blitzortung.rs:57-94 | the imperative loop with its mutable dictionary computes `Decode` |
| LzwProofs.StepKeepsInvariant | src/blitzortung.rs:71-91 | one iteration keeps the loop invariant: next code, exact key set, every entry equal to its reference entry, previous phrase and output equal to the reference |
| LzwProofs.RunInvariant | src/blitzortung.rs:71-91 | the loop invariant holds after every prefix of the input |
| LzwProofs.DecodeMatchesReference | src/blitzortung.rs:57-94 | the expansion equals the dictionary-free reference: the phrases of all symbols joined in order |
| LzwProofs.CodesConsecutive | src/blitzortung.rs:69 | after k symbols the next code is 256 + k and the dictionary holds exactly the codes 256 .. 256 + k - 1 |
| LzwProofs.EntryExtendsPreviousPhrase | src/blitzortung.rs:86-89 | the entry added at step k is the previous phrase extended by one symbol, the first of the new phrase |
| LzwProofs.UnassignedCodeFallsBack | src/blitzortung.rs:77-81 | a code not yet assigned (including the one about to be) expands to the previous phrase plus its first symbol |
| LzwProofs.AssignedCodeResolves | src/blitzortung.rs:77 | a code already assigned is in the dictionary and expands to its entry |
| LzwProofs.SecondSymbolSelfReference | src/blitzortung.rs:77-81 | the self-referencing case: `[a, 256]` expands to `aaa` |
| LzwProofs.LiteralsDecodeToThemselves | src/blitzortung.rs:74-75 | input made only of literals (code points below 256) expands to itself |
| LzwProofs.LiteralRun | src/blitzortung.rs:74-84 | over literals, the output after symbol k is the first k + 1 input symbols |
| LzwProofs.DecodeNotShorter | src/blitzortung.rs:84 | the expansion is never shorter than the input, since every symbol contributes a non-empty phrase |
| LzwProofs.OutputGrows | src/blitzortung.rs:84 | after symbol k the output holds at least k + 1 symbols |
| LzwProofs.PhraseFromInput | src/blitzortung.rs:74-82 | every symbol of a reference phrase is the first input symbol or a literal of the input |
| LzwProofs.OutputFromInput | src/blitzortung.rs:84 | every symbol of the reference output is the first input symbol or a literal of the input |
| LzwProofs.DecodeUsesOnlyInputSymbols | src/blitzortung.rs:57-94 | the expansion never invents a code point: every output symbol is the first input symbol (emitted verbatim, whatever its code) or a literal (below 256) of the input |
| LzwProofs.DecodeLiteralStartStaysLiteral | src/blitzortung.rs:57-94 | when the first symbol is below 256, every output symbol is below 256: no dictionary code reaches the expanded text |
| LzwProofs.HighFirstSymbolPassesThrough | src/blitzortung.rs:66-81 | a first symbol of 256 or more is copied through: U+0100 U+0100 expands to U+0100 three times |
| LzwProofs.DecodeReferenceLoop | src/blitzortung.rs:57-94 | the loop computes the reference expansion |
| Prelude.Decimal | src/websocket.rs:295 | a count is rendered as a non-empty string of decimal digits |
| Prelude.DecimalValue | src/websocket.rs:295 | the decimal rendering of a count reads back as the count |
| Json.EscapeChar | src/websocket.rs:165-168 | a character is escaped (starts with a backslash) exactly when it is a quote, a backslash or a control character |
| Json.UnescapeChar | src/websocket.rs:165-168 | each escaped character reads back as itself |
| Json.EscapeRoundTrip | src/websocket.rs:165-168 | a string member's text reads back unchanged: escaping loses nothing |
| Json.EscapePlain | src/websocket.rs:216-218 | text without quotes, backslashes or control characters is written as is |
| Json.MembersMention | src/websocket.rs:165-168 | the rendered member list shows every member |
| Json.ObjectMentionsString | src/websocket.rs:165-168 | the rendered object shows every string member's escaped value |
| Json.RenderObject | src/websocket.rs:165-168 | a rendered object is enclosed in braces |
| WebSocket.ReportPayload | src/websocket.rs:165-219 | each status report is a JSON object (its members are stated by WebSocket.ReportMentions) |
| WebSocket.BinaryEnvelope | src/websocket.rs:292-297 | a binary frame becomes a `binary` envelope whose payload is `{"size":N}`, the digits N reading back as the frame's byte count |
| WebSocket.ReportMentions | src/websocket.rs:163-224 | every status report shows its status word, and the url and error text it carries |
| WebSocket.ConnectedMentions | src/websocket.rs:163-168 | the success report shows "connected" and the url |
| WebSocket.FailedMentions | src/websocket.rs:183-189 | the failure report shows "failed", the error text and the url |
| WebSocket.DisconnectedMentions | src/websocket.rs:215-219 | the disconnection report shows "disconnected" |
| WebSocket.Initial | src/websocket.rs:88-97 | a new worker has no connection and has written nothing |
| WebSocket.ConnectStep | src/websocket.rs:151-203 | a connect always reports once: on success it is connected and reports "connected" with the url; on failure nothing changes and it reports "failed" with error and url |
| WebSocket.DisconnectStep | src/websocket.rs:206-230 | afterwards there is no connection; only an open connection is closed and reported, and without one nothing happens |
| WebSocket.SendStep | src/websocket.rs:232-248 | a message is written as one text frame when connected and dropped otherwise; it never reports or changes the connection |
| WebSocket.SendRawStep | src/trrpy.rs:225-232 | raw bytes are written as one binary frame when connected and dropped otherwise |
| WebSocket.Apply | src/websocket.rs:104-116 | a command emits as many envelopes as `Reports` counts for it: a Connect exactly one, a Disconnect one only when connected, a send none |
| WebSocket.HandleIncoming | src/websocket.rs:251-326 | a text frame yields exactly one envelope (its parse, else raw_text with the text unchanged); a binary frame yields one binary envelope; a ping is answered with a pong; nothing else emits; the connection is unchanged |
| WebSocket.OnRead | src/websocket.rs:119-143 | a frame is handled; the end of the stream or a read error disconnects; a timeout changes nothing |
| WebSocket.Drain | src/websocket.rs:104-116 | applying a batch of commands emits at most one envelope per command |
| WebSocket.Iterate | src/websocket.rs:102-148 | every queued command is applied before any frame is read, and a frame is read only when connected afterwards |
| WebSocket.NewLink | src/websocket.rs:32-52 | a new manager has empty channels and a disconnected worker |
| WebSocket.Enqueue | src/websocket.rs:54-70 | connect, disconnect and send only append to the command channel |
| WebSocket.Poll | src/websocket.rs:72-74 | a non-blocking receive returns the oldest pending envelope, or nothing when there is none |
| WebSocket.Tick | src/websocket.rs:102-148 | a worker iteration empties the command channel and puts its envelopes behind those already waiting |
| WebSocketProofs.DrainInOrder | src/websocket.rs:104-116 | commands take effect in the order enqueued: a concatenated batch is its first part, then its second, with envelopes in that order |
| WebSocketProofs.DrainReportCount | src/websocket.rs:151-230 | a batch emits at least one envelope per Connect and at most one per Connect or Disconnect |
| WebSocketProofs.SendsAreSilent | src/websocket.rs:232-248 | a batch of sends reports nothing and leaves the connection as it was |
| WebSocketProofs.DisconnectIdempotent | src/websocket.rs:206-230 | disconnecting twice reports once; the second disconnect changes nothing |
| WebSocketProofs.NoReadWhileDisconnected | src/websocket.rs:119-147 | without a connection the inbound side is not read: whatever the network offers, the iteration is the same |
| WebSocketProofs.FramesKeepOrder | src/websocket.rs:251-307 | while connected, text and binary frames become envelopes one for one and in arrival order, and the connection stays up |
| WebSocketProofs.PollAllInOrder | src/websocket.rs:72-74 | polling until empty returns exactly the emitted envelopes, in emission order |
| WebSocketProofs.TickKeepsPendingFirst | src/websocket.rs:102-148 | envelopes already waiting are polled before those of a later worker iteration |
| Trrpy.Default | src/trrpy.rs:32-48 | the application starts with no manager, Disconnected, no strikes and the popup hidden |
| Trrpy.ConnectBlitzortung | src/trrpy.rs:197-212 | a manager is created only when there is none; it is asked to connect to the first server; the status becomes Connecting |
| Trrpy.DisconnectBlitzortung | src/trrpy.rs:214-223 | without a manager nothing changes; with one, it is asked to disconnect and the status becomes Disconnected |
| Trrpy.SetPopupVisible | src/trrpy.rs:52-62 | only a change of visibility acts: showing connects, hiding disconnects, and the popup ends in the requested state |
| Trrpy.SendHandshake | src/trrpy.rs:225-232 | with a manager, exactly the handshake bytes are queued as a raw send; without one nothing changes |
| Trrpy.ClassifyAsWritten | src/trrpy.rs:255-263 | as written: Connected exactly when the payload mentions "connected"; Error (carrying the payload) exactly when it mentions "failed" or "error" but not "connected"; no status exactly when it mentions none of the three |
| Trrpy.Classify | src/trrpy.rs:255-263 | corrected order: Disconnected exactly when the payload mentions "disconnected"; Connected exactly when it mentions "connected" but not "disconnected"; Error (carrying the payload) exactly when it mentions "failed" or "error" but not "connected"; never Connecting |
| Trrpy.DisconnectedMentionsConnected | src/trrpy.rs:255-261 | any text mentioning "disconnected" mentions "connected", so the first test always catches it |
| Trrpy.AsWrittenNeverDisconnects | src/trrpy.rs:261-263 | as written, no payload at all is classified as Disconnected |
| Trrpy.DisconnectReportMisread | src/trrpy.rs:255-258 | as written, the worker's own disconnection report is read as Connected |
| Trrpy.DisconnectReportRead | src/trrpy.rs:261-263 | the corrected classification reads the disconnection report as Disconnected |
| Trrpy.LineOf | src/trrpy.rs:284-294 | a strike's list line has hours below 24, minutes and seconds below 60, together equal to the strike's whole seconds modulo one day, and carries the strike's position |
| Trrpy.TimeOfDay | src/trrpy.rs:282-289 | the strike time is a valid UTC time of day (h < 24, m, s < 60) denoting the whole seconds since the epoch modulo one day |
| Trrpy.DayBreakdown | src/trrpy.rs:286-289 | hours, minutes and seconds computed with division and remainder recombine to the seconds of the day |
| Trrpy.PushStrike | src/trrpy.rs:302-307 | a strike is appended, and the oldest one dropped only when the list would exceed 100 |
| Trrpy.HandleLightning | src/trrpy.rs:276-312 | text whose expansion parses as a strike appends its line; any other text leaves the application unchanged |
| Trrpy.HandleMessage | src/trrpy.rs:249-273 | under either reading (as written or corrected), a status envelope sets the classified status and Connected also queues the handshake; as written, any status payload mentioning "connected" sets Connected and queues the handshake; corrected, one mentioning "disconnected" sets Disconnected; raw text is handled as a strike; other kinds change nothing |
| Trrpy.HandleAll | src/trrpy.rs:249-273 | processing a batch never changes popup visibility or whether a manager exists, keeps the strike list within 100 entries, and keeps the invariant when a manager exists (TrrpyProofs.HandleAllStrikes, HandleAllStatus and HandleAllHandshakes state what it computes) |
| Trrpy.HandleWebsocketMessages | src/trrpy.rs:234-274 | with a manager, all pending envelopes are taken and processed in order; without one nothing changes |
| TrrpyProofs.OperationsKeepValid | src/trrpy.rs:197-232 | connect, disconnect, visibility changes and the handshake keep the invariant: at most 100 strikes, and a visible popup or any status but Disconnected has a manager |
| TrrpyProofs.SetPopupVisibleIdempotent | src/trrpy.rs:52-62 | showing or hiding twice is the same as once |
| TrrpyProofs.ShowReusesManager | src/trrpy.rs:200-208 | showing the popup again keeps the one existing manager, with a single Connect to the first server added behind its pending commands |
| TrrpyProofs.PushAllKeepsNewest | src/trrpy.rs:302-307 | after any number of pushes the list is the newest 100 strikes received (all of them if fewer), oldest first |
| TrrpyProofs.PushAllAppend | src/trrpy.rs:302-307 | pushing two batches is pushing their concatenation |
| TrrpyProofs.HandleAllStrikes | src/trrpy.rs:265-268 | a batch of envelopes pushes exactly the strike lines its raw_text envelopes parse to, in order |
| TrrpyProofs.HandleAllStatus | src/trrpy.rs:251-264 | under either reading, after a batch the status is the last one any envelope was classified as under that reading, or the earlier status when none was |
| TrrpyProofs.HandleAllHandshakes | src/trrpy.rs:255-258 | under either reading, a batch queues exactly one handshake per envelope that reading classifies as Connected, in order, and changes nothing else of the manager or the popup |
| TrrpyProofs.DisconnectReportResendsHandshake | src/trrpy.rs:255-263 | as written, the disconnection report sets Connected and appends one handshake to the pending commands, leaving strikes and visibility alone; corrected, it sets Disconnected and changes nothing else |
| TrrpyProofs.HandleWebsocketMessagesKeepsValid | src/trrpy.rs:234-274 | taking and processing the pending envelopes keeps the invariant, empties the event channel, and leaves the newest 100 strikes of everything received |
| TrrpyProofs.UnknownKindsIgnored | src/trrpy.rs:269-271 | any number of envelopes of unknown kinds change nothing |
| Scenarios.RunWorker | src/websocket.rs:102-148 | the worker thread runs one iteration on the application's manager without touching the application's own state |
| Scenarios.ConnectThenReceive | src/websocket.rs:151-178 | connect, handshake accepted, one non-structured text frame: polling yields the "connected" report and then the text, which expands to itself when all literal |
| Scenarios.ConnectRefused | src/websocket.rs:179-202 | a refused handshake yields exactly one failure report, showing "failed" and the error text, and no connection |
| Scenarios.HideWhileConnected | src/trrpy.rs:214-223 | hiding while connected shows Disconnected, the worker closes the socket and reports it, and the corrected reading of the report keeps Disconnected with no handshake; as written, the report sets Connected and queues a handshake for the closed socket |

## Left out

- Timestamps (`timestamp` of every message, from the system clock): not modelled, since nothing reads them.
- WebSocket.ReportPayload: its own contract promises only a braced object. Which text it contains is stated by WebSocket.ReportMentions. No contract states the members' ascending key order, which only serialisation relies on.
- WebSocket.BinaryEnvelope: the payload carries the `size` member only; the base64 `data` member is not rendered, because it would need a model of base64 that nothing in the core reads back.
- Logging (`ll`): the log has no effect on state.
- Threads, the tokio runtime, the 100 ms timeout and sleep: the worker loop is modelled one iteration at a time. A timeout is the `Idle` read.
- `recv_message_blocking` (src/websocket.rs:76-78): blocking on a channel has no sequential counterpart. `Poll` is the non-blocking receive.
- Failed channel sends and failed socket writes (a dropped receiver, a write error on close, pong or send): the source only logs them. The model treats every send and write as succeeding.
- A failed mutex lock (src/trrpy.rs:206, 218, 227, 236): the lock is assumed to succeed.
- JSON parsing of an inbound text frame, and of decoded text as a `LightningStrike`, are oracles. serde's parser is not part of this model.
- Serialising an outbound message (src/websocket.rs:234): written as the `WireMessage` envelope. The serialisation cannot fail for this type, so its error branch is left out.
- Latitude, longitude, altitude, their `{:.4}` formatting and the other strike fields: the floats are represented by the already formatted `location` string.
- The else branch at src/trrpy.rs:295-300: `UNIX_EPOCH + d` is never before `UNIX_EPOCH`, so `duration_since` cannot fail there.
- The `u32` code counter (src/blitzortung.rs:69): overflow is not modelled. It would need more than four billion symbols in one frame.
- A Connect while already connected replaces the socket without closing it or reporting (src/websocket.rs:160). The model keeps `connected` true and does not track socket identity.
- Server fail-over: the application always connects to the first of the three servers, as the source does. The other two appear only in the `Servers` constant.
- The drawing and input handling in `update` (src/trrpy.rs:64-195): no model. Only its call to `handle_websocket_messages` is modelled, as `HandleWebsocketMessages`. The same goes for the fields `name`, `counter`, `text_input`, `mouse_pos`, `last_key`, `esc_pressed` and `prev_pid`.
- `src/main.rs`, `src/cocoa_app.rs`, `src/egui_view.rs`, `src/hotkey.rs` and `src/utils.rs` are not part of this model: they are windowing, hotkey, foreign-function and logging code.

## Findings

| source | as written | input that shows it | evidently intended | confidence | as-written member | corrected member |
|---|---|---|---|---|---|---|
| src/trrpy.rs:255-263 | the status text is searched for "connected" before "disconnected"; every text containing "disconnected" also contains "connected", so the Disconnected branch is unreachable | the worker's own disconnection report `{"status":"disconnected"}` (src/websocket.rs:215-219) is read as Connected, and the handshake is queued again for the closed socket (`DisconnectReportMisread`, `AsWrittenNeverDisconnects`, `TrrpyProofs.DisconnectReportResendsHandshake`, `HideWhileConnected`) | a disconnection report sets Disconnected and queues no handshake | high; not executed | Trrpy.ClassifyAsWritten | Trrpy.Classify |
