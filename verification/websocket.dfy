/** The connection worker and its manager, reduced to sequential logic.

    The worker owns the socket; here the socket is only a flag (connected or
    not) plus the list of frames the worker has written to it. Everything the
    network decides (does the handshake succeed, what arrives next) is an
    input, and JSON parsing of an inbound text frame is an oracle `parse`.

    The envelope is the transport unit the worker hands to the manager:
    a kind tag and a textual payload. The application layer in trrpy.rs reads
    the fields as `mtype`/`payload` and calls `send_raw`, while websocket.rs
    names them `message_type`/`data` (a JSON value) and has no raw send; this
    model uses one envelope `{kind, payload}` for both sides and a `SendRaw`
    command for the application's raw writes. */
module WebSocket {
  import opened Prelude
  import opened Json

  const KindStatus: string := "connection_status"
  const KindRawText: string := "raw_text"
  const KindBinary: string := "binary"

  datatype Envelope = Envelope(kind: string, payload: string)

  /** What the manager asks the worker to do, in the order asked. */
  datatype Command =
    | Connect(url: string)
    | Disconnect
    | Send(message: Envelope)
    | SendRaw(bytes: seq<byte>)

  /** An inbound WebSocket frame. */
  datatype Frame =
    | Text(text: string)
    | Binary(data: seq<byte>)
    | Ping(data: seq<byte>)
    | Pong(data: seq<byte>)
    | Close
    | RawFrame

  /** The outcome of waiting (a bounded time) for one inbound frame. */
  datatype Read =
    | Idle
    | Received(frame: Frame)
    | StreamEnd
    | ReadError(reason: string)

  /** The outcome of the WebSocket handshake for one Connect command. */
  datatype Dial = Accepted | Refused(error: string)

  /** A frame the worker writes to the socket. `WireMessage` is the JSON
      serialisation of an envelope, sent as a text frame. */
  datatype Wire =
    | WireMessage(message: Envelope)
    | WireBytes(bytes: seq<byte>)
    | WirePong(data: seq<byte>)
    | WireClose

  /** The parse of an inbound text frame as an envelope, when it is one. */
  type Parser = string -> Option<Envelope>

  /** A connection-status report. */
  datatype Report =
    | ReportConnected(url: string)
    | ReportFailed(error: string, url: string)
    | ReportDisconnected

  /** The JSON text of a report: the `status` word, with the error text and
      the url where the report has them. */
  function ReportPayload(r: Report): (p: string)
    ensures |p| >= 2 && p[0] == '{' && p[|p| - 1] == '}'
  {
    match r
    case ReportConnected(url) => RenderObject([("status", Str("connected")), ("url", Str(url))])
    case ReportFailed(error, url) =>
      RenderObject([("error", Str(error)), ("status", Str("failed")), ("url", Str(url))])
    case ReportDisconnected => RenderObject([("status", Str("disconnected"))])
  }

  /** The value of a report's `status` member. */
  function StatusWord(r: Report): string
  {
    match r
    case ReportConnected(_) => "connected"
    case ReportFailed(_, _) => "failed"
    case ReportDisconnected => "disconnected"
  }

  /** Every report's text shows its status word, and the error text and url
      it carries (escaped as JSON escapes them). */
  lemma ReportMentions(r: Report)
    ensures Contains(ReportPayload(r), StatusWord(r))
    ensures r.ReportConnected? ==> Contains(ReportPayload(r), Escape(r.url))
    ensures r.ReportFailed? ==>
      Contains(ReportPayload(r), Escape(r.url)) && Contains(ReportPayload(r), Escape(r.error))
  {
    match r
    case ReportConnected(url) => ConnectedMentions(url);
    case ReportFailed(e, url) => FailedMentions(e, url);
    case ReportDisconnected => DisconnectedMentions();
  }

  lemma ConnectedMentions(url: string)
    ensures Contains(ReportPayload(ReportConnected(url)), "connected")
    ensures Contains(ReportPayload(ReportConnected(url)), Escape(url))
  {
    var fields := [("status", Str("connected")), ("url", Str(url))];
    EscapePlain("connected");
    ObjectMentionsString(fields, 0);
    ObjectMentionsString(fields, 1);
  }

  lemma FailedMentions(e: string, url: string)
    ensures Contains(ReportPayload(ReportFailed(e, url)), "failed")
    ensures Contains(ReportPayload(ReportFailed(e, url)), Escape(e))
    ensures Contains(ReportPayload(ReportFailed(e, url)), Escape(url))
  {
    var fields := [("error", Str(e)), ("status", Str("failed")), ("url", Str(url))];
    EscapePlain("failed");
    ObjectMentionsString(fields, 0);
    ObjectMentionsString(fields, 1);
    ObjectMentionsString(fields, 2);
  }

  lemma DisconnectedMentions()
    ensures Contains(ReportPayload(ReportDisconnected), "disconnected")
  {
    EscapePlain("disconnected");
    ObjectMentionsString([("status", Str("disconnected"))], 0);
  }

  function StatusEnvelope(r: Report): Envelope
  {
    Envelope(KindStatus, ReportPayload(r))
  }

  /** The envelope for an inbound binary frame: a `binary` envelope whose
      payload is the object `{"size":N}`, N the frame's byte count in
      decimal. */
  function BinaryEnvelope(data: seq<byte>): (e: Envelope)
    ensures e.kind == KindBinary
    ensures |e.payload| > 9 && e.payload[..8] == "{\"size\":" && e.payload[|e.payload| - 1] == '}'
    ensures forall i :: 8 <= i < |e.payload| - 1 ==> '0' <= e.payload[i] <= '9'
    ensures DigitsValue(e.payload[8..|e.payload| - 1]) == |data|
  {
    SizeReadsBack(|data|);
    Envelope(KindBinary, RenderObject([("size", Num(|data|))]))
  }

  /** The digits between `{"size":` and the closing brace read back as the
      size. */
  lemma SizeReadsBack(n: nat)
    ensures var p := RenderObject([("size", Num(n))]);
      && |p| > 9 && p[..8] == "{\"size\":" && p[|p| - 1] == '}'
      && p[8..|p| - 1] == Decimal(n)
      && DigitsValue(Decimal(n)) == n
  {
    NumberObject("size", n);
    DecimalValue(n);
  }

  datatype Worker = Worker(connected: bool, written: seq<Wire>)

  /** A worker state together with the envelopes a transition emitted, in order. */
  datatype Emit = Emit(worker: Worker, envelopes: seq<Envelope>)

  function Initial(): (w: Worker)
    ensures !w.connected && w.written == []
  {
    Worker(false, [])
  }

  /** Connect: on success the worker is connected (a previous connection is
      dropped without a close frame) and reports `connected` with the url; on
      failure the connection state is left as it was and the worker reports
      `failed` with the error and the url. Exactly one report either way. */
  function ConnectStep(w: Worker, url: string, dial: Dial): (r: Emit)
    ensures |r.envelopes| == 1 && r.envelopes[0].kind == KindStatus
    ensures r.worker.written == w.written
    ensures r.worker.connected <==> (dial.Accepted? || w.connected)
    ensures dial.Accepted? ==> r.envelopes == [StatusEnvelope(ReportConnected(url))]
    ensures dial.Refused? ==> r.worker == w && r.envelopes == [StatusEnvelope(ReportFailed(dial.error, url))]
  {
    match dial
    case Accepted => Emit(Worker(true, w.written), [StatusEnvelope(ReportConnected(url))])
    case Refused(e) => Emit(w, [StatusEnvelope(ReportFailed(e, url))])
  }

  /** Disconnect: without a connection nothing happens; with one, the worker
      writes a close frame (whose failure is only logged), drops the
      connection and reports `disconnected` exactly once. */
  function DisconnectStep(w: Worker): (r: Emit)
    ensures !r.worker.connected
    ensures !w.connected ==> r == Emit(w, [])
    ensures w.connected ==> r.envelopes == [StatusEnvelope(ReportDisconnected)]
    ensures w.connected ==> r.worker.written == w.written + [WireClose]
  {
    if w.connected then Emit(Worker(false, w.written + [WireClose]), [StatusEnvelope(ReportDisconnected)])
    else Emit(w, [])
  }

  /** Send: with a connection the message is serialised and written as one
      text frame (a write failure is only logged); without one nothing
      happens. Never reports anything. */
  function SendStep(w: Worker, message: Envelope): (r: Emit)
    ensures r.envelopes == []
    ensures r.worker.connected == w.connected
    ensures !w.connected ==> r.worker == w
    ensures w.connected ==> r.worker.written == w.written + [WireMessage(message)]
  {
    if w.connected then Emit(Worker(true, w.written + [WireMessage(message)]), []) else Emit(w, [])
  }

  /** Raw send: like Send, but the bytes are written as they are. */
  function SendRawStep(w: Worker, bytes: seq<byte>): (r: Emit)
    ensures r.envelopes == []
    ensures r.worker.connected == w.connected
    ensures !w.connected ==> r.worker == w
    ensures w.connected ==> r.worker.written == w.written + [WireBytes(bytes)]
  {
    if w.connected then Emit(Worker(true, w.written + [WireBytes(bytes)]), []) else Emit(w, [])
  }

  /** How many envelopes one command emits from a given worker: a Connect
      always reports (connected or failed), a Disconnect only when there was
      a connection to close, a send never. */
  function Reports(w: Worker, cmd: Command): nat
  {
    match cmd
    case Connect(_) => 1
    case Disconnect => if w.connected then 1 else 0
    case _ => 0
  }

  /** Apply one command. */
  function Apply(w: Worker, cmd: Command, dial: Dial): (r: Emit)
    ensures |r.envelopes| == Reports(w, cmd)
    ensures |r.envelopes| <= 1
    ensures cmd.Connect? ==> |r.envelopes| == 1
    ensures (cmd.Send? || cmd.SendRaw?) ==> r.envelopes == []
  {
    match cmd
    case Connect(url) => ConnectStep(w, url, dial)
    case Disconnect => DisconnectStep(w)
    case Send(m) => SendStep(w, m)
    case SendRaw(b) => SendRawStep(w, b)
  }

  /** Handle one inbound frame. A text frame yields exactly one envelope:
      its parse when it parses, otherwise a `raw_text` envelope carrying the
      text unchanged. A binary frame yields one `binary` envelope with its
      size. Ping, pong, close and other frames yield nothing and leave the
      connection as it is; a ping is answered with a pong when connected. */
  function HandleIncoming(w: Worker, frame: Frame, parse: Parser): (r: Emit)
    ensures r.worker.connected == w.connected
    ensures frame.Text? && parse(frame.text).Some? ==> r.envelopes == [parse(frame.text).value]
    ensures frame.Text? && parse(frame.text).None? ==> r.envelopes == [Envelope(KindRawText, frame.text)]
    ensures frame.Binary? ==> r.envelopes == [BinaryEnvelope(frame.data)]
    ensures (frame.Text? || frame.Binary?) ==> r.worker == w
    ensures !(frame.Text? || frame.Binary?) ==> r.envelopes == []
    ensures frame.Ping? && w.connected ==> r.worker.written == w.written + [WirePong(frame.data)]
    ensures !(frame.Ping? && w.connected) ==> r.worker == w
  {
    match frame
    case Text(text) =>
      (match parse(text)
       case Some(m) => Emit(w, [m])
       case None => Emit(w, [Envelope(KindRawText, text)]))
    case Binary(data) => Emit(w, [BinaryEnvelope(data)])
    case Ping(data) =>
      if w.connected then Emit(Worker(true, w.written + [WirePong(data)]), []) else Emit(w, [])
    case Pong(_) => Emit(w, [])
    case Close => Emit(w, [])
    case RawFrame => Emit(w, [])
  }

  /** Handle the outcome of waiting for one inbound frame: a frame is
      handled, the end of the stream or a read error disconnects, and a
      timeout changes nothing. */
  function OnRead(w: Worker, read: Read, parse: Parser): (r: Emit)
    ensures read.Idle? ==> r == Emit(w, [])
    ensures read.Received? ==> r == HandleIncoming(w, read.frame, parse)
    ensures (read.StreamEnd? || read.ReadError?) ==> r == DisconnectStep(w)
  {
    match read
    case Idle => Emit(w, [])
    case Received(f) => HandleIncoming(w, f, parse)
    case StreamEnd => DisconnectStep(w)
    case ReadError(_) => DisconnectStep(w)
  }

  /** Apply queued commands in FIFO order; `dial[i]` is the handshake outcome
      should `cmds[i]` be a Connect. */
  function Drain(w: Worker, cmds: seq<Command>, dial: seq<Dial>): (r: Emit)
    requires |dial| == |cmds|
    ensures |r.envelopes| <= |cmds|
    decreases |cmds|
  {
    if |cmds| == 0 then Emit(w, [])
    else
      var first := Apply(w, cmds[0], dial[0]);
      var rest := Drain(first.worker, cmds[1..], dial[1..]);
      Emit(rest.worker, first.envelopes + rest.envelopes)
  }

  /** One iteration of the worker loop: every queued command is applied, in
      order, before at most one inbound frame is read, and a frame is read
      only if the worker is connected once the commands are done. */
  function Iterate(w: Worker, cmds: seq<Command>, dial: seq<Dial>, read: Read, parse: Parser): (r: Emit)
    requires |dial| == |cmds|
    ensures !Drain(w, cmds, dial).worker.connected ==> r == Drain(w, cmds, dial)
    ensures Drain(w, cmds, dial).worker.connected ==>
      var after := OnRead(Drain(w, cmds, dial).worker, read, parse);
      r == Emit(after.worker, Drain(w, cmds, dial).envelopes + after.envelopes)
  {
    var drained := Drain(w, cmds, dial);
    if drained.worker.connected then
      var after := OnRead(drained.worker, read, parse);
      Emit(after.worker, drained.envelopes + after.envelopes)
    else drained
  }

  /* ---------------------------------------------------------------------
     The manager side: the two FIFO channels between the caller and the
     worker, and the worker itself.
     --------------------------------------------------------------------- */

  /** `commands` are enqueued and not yet applied; `events` are emitted and
      not yet polled. */
  datatype Link = Link(commands: seq<Command>, worker: Worker, events: seq<Envelope>)

  /** A new manager: empty channels and a disconnected worker. */
  function NewLink(): (l: Link)
    ensures l.commands == [] && l.events == [] && !l.worker.connected
  {
    Link([], Initial(), [])
  }

  /** The manager's `connect`, `disconnect`, `send_message` and the
      application's raw send: enqueue, and return at once. */
  function Enqueue(l: Link, cmd: Command): (l': Link)
    ensures l'.commands == l.commands + [cmd]
    ensures l'.worker == l.worker && l'.events == l.events
  {
    l.(commands := l.commands + [cmd])
  }

  /** The manager's non-blocking receive: the oldest pending envelope, if any. */
  function Poll(l: Link): (r: (Option<Envelope>, Link))
    ensures |l.events| == 0 ==> r == (None, l)
    ensures |l.events| > 0 ==> r.0 == Some(l.events[0]) && r.1.events == l.events[1..]
    ensures r.1.commands == l.commands && r.1.worker == l.worker
  {
    if |l.events| == 0 then (None, l) else (Some(l.events[0]), l.(events := l.events[1..]))
  }

  /** One worker iteration seen from the manager: the command queue is
      emptied and the emitted envelopes join the event queue behind those
      already waiting. */
  function Tick(l: Link, dial: seq<Dial>, read: Read, parse: Parser): (l': Link)
    requires |dial| == |l.commands|
    ensures l'.commands == []
    ensures l'.events == l.events + Iterate(l.worker, l.commands, dial, read, parse).envelopes
    ensures l'.worker == Iterate(l.worker, l.commands, dial, read, parse).worker
  {
    var r := Iterate(l.worker, l.commands, dial, read, parse);
    Link([], r.worker, l.events + r.envelopes)
  }
}
