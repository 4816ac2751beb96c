/** The consumer side of the lightning monitor, without its drawing: popup
    visibility drives connect/disconnect, connection-status envelopes drive a
    status indicator, and raw-text envelopes are expanded, parsed as strikes
    and kept in a window of the most recent ones. */
module Trrpy {
  import opened Prelude
  import opened Blitzortung
  import opened WebSocket

  datatype Status = Disconnected | Connecting | Connected | Error(text: string)

  /** One line of the strike list: the UTC time of day of the strike and the
      already formatted position. */
  datatype StrikeLine = StrikeLine(hours: nat, minutes: nat, seconds: nat, location: string)

  /** How many strikes the list keeps. */
  const MaxStrikes: nat := 100

  /** `manager` is the connection manager with its worker, created on the
      first connect and never dropped afterwards. */
  datatype App = App(manager: Option<Link>, status: Status, strikes: seq<StrikeLine>, visible: bool)

  /** The strike parser applied to decoded text. */
  type StrikeParser = string -> Option<Strike>

  /** The state the application starts in. */
  function Default(): (a: App)
    ensures a.manager.None? && a.status == Disconnected && a.strikes == [] && !a.visible
  {
    App(None, Disconnected, [], false)
  }

  /** What the application keeps true of itself: the strike list is bounded;
      a visible popup and any status other than Disconnected imply that a
      manager exists. */
  predicate Valid(a: App)
  {
    && |a.strikes| <= MaxStrikes
    && (a.visible ==> a.manager.Some?)
    && (a.status != Disconnected ==> a.manager.Some?)
  }

  /** Create the manager if there is none (so there is at most one), ask it
      to connect to the first server, and show Connecting. */
  function ConnectBlitzortung(a: App): (r: App)
    ensures r.manager.Some? && r.status == Connecting
    ensures a.manager.Some? ==> r.manager == Some(Enqueue(a.manager.value, Connect(Servers[0])))
    ensures a.manager.None? ==> r.manager == Some(Enqueue(NewLink(), Connect(Servers[0])))
    ensures r.strikes == a.strikes && r.visible == a.visible
  {
    var link := if a.manager.Some? then a.manager.value else NewLink();
    a.(manager := Some(Enqueue(link, Connect(Servers[0]))), status := Connecting)
  }

  /** With a manager: ask it to disconnect and show Disconnected. Without
      one: nothing changes. */
  function DisconnectBlitzortung(a: App): (r: App)
    ensures a.manager.None? ==> r == a
    ensures a.manager.Some? ==>
      r == a.(manager := Some(Enqueue(a.manager.value, Disconnect)), status := Disconnected)
  {
    match a.manager
    case None => a
    case Some(link) => a.(manager := Some(Enqueue(link, Disconnect)), status := Disconnected)
  }

  /** Show or hide the popup. Only a change of visibility does anything:
      showing connects, hiding disconnects. */
  function SetPopupVisible(a: App, visible: bool): (r: App)
    ensures a.visible == visible ==> r == a
    ensures a.visible != visible && visible ==> r == ConnectBlitzortung(a.(visible := true))
    ensures a.visible != visible && !visible ==> r == DisconnectBlitzortung(a.(visible := false))
    ensures r.visible == visible
  {
    if a.visible == visible then a
    else if visible then ConnectBlitzortung(a.(visible := true))
    else DisconnectBlitzortung(a.(visible := false))
  }

  /** Ask the manager (if any) to write the start-streaming handshake. */
  function SendHandshake(a: App): (r: App)
    ensures a.manager.None? ==> r == a
    ensures a.manager.Some? ==> r == a.(manager := Some(Enqueue(a.manager.value, SendRaw(Handshake))))
  {
    match a.manager
    case None => a
    case Some(link) => a.(manager := Some(Enqueue(link, SendRaw(Handshake))))
  }

  /* ---------------------------------------------------------------------
     Connection-status classification.
     --------------------------------------------------------------------- */

  /** The classification as trrpy.rs writes it: "connected" is looked for first,
      then "failed"/"error", then "disconnected". `None` leaves the status as
      it is. Because "disconnected" contains "connected", the last branch can
      never be taken. */
  function ClassifyAsWritten(payload: string): (r: Option<Status>)
    ensures r == Some(Connected) <==> Contains(payload, "connected")
    ensures r.Some? && r.value.Error? <==>
      !Contains(payload, "connected") && (Contains(payload, "failed") || Contains(payload, "error"))
    ensures r.Some? && r.value.Error? ==> r.value.text == payload
    ensures r.None? <==>
      !Contains(payload, "connected") && !Contains(payload, "failed") && !Contains(payload, "error")
  {
    DisconnectedMentionsConnected(payload);
    if Contains(payload, "connected") then Some(Connected)
    else if Contains(payload, "failed") || Contains(payload, "error") then Some(Error(payload))
    else if Contains(payload, "disconnected") then Some(Disconnected)
    else None
  }

  /** The classification the branches evidently intend: "disconnected" is
      looked for before "connected", so a disconnection report is read as
      Disconnected. */
  function Classify(payload: string): (r: Option<Status>)
    ensures r == Some(Disconnected) <==> Contains(payload, "disconnected")
    ensures r == Some(Connected) <==> Contains(payload, "connected") && !Contains(payload, "disconnected")
    ensures r.Some? && r.value.Error? <==>
      !Contains(payload, "connected") && (Contains(payload, "failed") || Contains(payload, "error"))
    ensures r.Some? && r.value.Error? ==> r.value.text == payload
    ensures r != Some(Connecting)
  {
    DisconnectedMentionsConnected(payload);
    if Contains(payload, "disconnected") then Some(Disconnected)
    else if Contains(payload, "connected") then Some(Connected)
    else if Contains(payload, "failed") || Contains(payload, "error") then Some(Error(payload))
    else None
  }

  /** Whatever mentions "disconnected" mentions "connected". */
  lemma DisconnectedMentionsConnected(payload: string)
    ensures Contains(payload, "disconnected") ==> Contains(payload, "connected")
  {
    if Contains(payload, "disconnected") {
      assert "disconnected" == "dis" + "connected" + "";
      ContainsInfix("dis", "connected", "");
      ContainsTransitive(payload, "disconnected", "connected");
    }
  }

  /** As written, no payload is ever classified as Disconnected. */
  lemma AsWrittenNeverDisconnects(payload: string)
    ensures ClassifyAsWritten(payload) != Some(Disconnected)
  {
    DisconnectedMentionsConnected(payload);
  }

  /** The worker's disconnection report, read as written, turns the status
      to Connected (and makes the application send the handshake again). */
  lemma DisconnectReportMisread()
    ensures ClassifyAsWritten(ReportPayload(ReportDisconnected)) == Some(Connected)
  {
    ReportMentions(ReportDisconnected);
    DisconnectedMentionsConnected(ReportPayload(ReportDisconnected));
  }

  /** The corrected classification reads the disconnection report as Disconnected. */
  lemma DisconnectReportRead()
    ensures Classify(ReportPayload(ReportDisconnected)) == Some(Disconnected)
  {
    ReportMentions(ReportDisconnected);
  }

  /** Which branch order the application classifies status payloads with:
      the order trrpy.rs writes, or the order its branches evidently intend. */
  datatype Reading = AsWritten | Corrected

  function ClassifyBy(reading: Reading, payload: string): Option<Status>
  {
    match reading
    case AsWritten => ClassifyAsWritten(payload)
    case Corrected => Classify(payload)
  }

  /* ---------------------------------------------------------------------
     Strikes.
     --------------------------------------------------------------------- */

  const MicrosPerSecond: nat := 1000000

  /** The UTC time of day of a microsecond timestamp: whole seconds since the
      epoch broken into hours (mod 24), minutes (mod 60) and seconds (mod 60). */
  function TimeOfDay(timeUs: u64): (r: (nat, nat, nat))
    ensures r.0 < 24 && r.1 < 60 && r.2 < 60
    ensures r.0 * 3600 + r.1 * 60 + r.2 == (timeUs / MicrosPerSecond) % 86400
  {
    var secs := timeUs / MicrosPerSecond;
    DayBreakdown(secs);
    ((secs / 3600) % 24, (secs / 60) % 60, secs % 60)
  }

  lemma DayBreakdown(secs: nat)
    ensures ((secs / 3600) % 24) * 3600 + ((secs / 60) % 60) * 60 + secs % 60 == secs % 86400
  {
    var minutes := secs / 60;
    var hours := minutes / 60;
    assert secs == minutes * 60 + secs % 60;
    assert minutes == hours * 60 + minutes % 60;
    assert secs / 3600 == hours by {
      assert secs == hours * 3600 + ((minutes % 60) * 60 + secs % 60);
      assert 0 <= (minutes % 60) * 60 + secs % 60 < 3600;
    }
    assert hours == (hours / 24) * 24 + hours % 24;
    assert secs == (hours / 24) * 86400 + ((hours % 24) * 3600 + (minutes % 60) * 60 + secs % 60);
    assert 0 <= (hours % 24) * 3600 + (minutes % 60) * 60 + secs % 60 < 86400;
  }

  /** The list line for a strike: its UTC time of day and its position. */
  function LineOf(s: Strike): (r: StrikeLine)
    ensures r.hours < 24 && r.minutes < 60 && r.seconds < 60
    ensures r.hours * 3600 + r.minutes * 60 + r.seconds == (s.time / MicrosPerSecond) % 86400
    ensures r.location == s.location
  {
    var t := TimeOfDay(s.time);
    StrikeLine(t.0, t.1, t.2, s.location)
  }

  /** Append a strike line and, if the list is then longer than
      `MaxStrikes`, drop its oldest entry. */
  function PushStrike(lines: seq<StrikeLine>, line: StrikeLine): (r: seq<StrikeLine>)
    ensures |lines| < MaxStrikes ==> r == lines + [line]
    ensures |lines| >= MaxStrikes ==> r == lines[1..] + [line]
    ensures |lines| <= MaxStrikes ==> |r| <= MaxStrikes
  {
    var grown := lines + [line];
    if |grown| > MaxStrikes then grown[1..] else grown
  }

  /** Expand a raw-text payload and, when it parses as a strike, record it;
      text that does not parse leaves the list unchanged. */
  function HandleLightning(a: App, text: string, parse: StrikeParser): (r: App)
    ensures parse(Decode(text)).None? ==> r == a
    ensures parse(Decode(text)).Some? ==>
      r == a.(strikes := PushStrike(a.strikes, LineOf(parse(Decode(text)).value)))
  {
    match parse(Decode(text))
    case Some(strike) => a.(strikes := PushStrike(a.strikes, LineOf(strike)))
    case None => a
  }

  /** Process one envelope: a connection status updates the indicator (and
      Connected sends the handshake), a raw text is handled as a strike, and
      any other kind changes nothing. `reading` picks the branch order the
      status payload is classified with. */
  function HandleMessage(a: App, m: Envelope, parse: StrikeParser, reading: Reading): (r: App)
    ensures m.kind != KindStatus && m.kind != KindRawText ==> r == a
    ensures m.kind == KindRawText ==> r == HandleLightning(a, m.payload, parse)
    ensures m.kind == KindStatus && ClassifyBy(reading, m.payload).None? ==> r == a
    ensures m.kind == KindStatus && ClassifyBy(reading, m.payload) == Some(Connected) ==>
      r == SendHandshake(a.(status := Connected))
    ensures m.kind == KindStatus && ClassifyBy(reading, m.payload).Some? && ClassifyBy(reading, m.payload) != Some(Connected) ==>
      r == a.(status := ClassifyBy(reading, m.payload).value)
    ensures reading == AsWritten && m.kind == KindStatus && Contains(m.payload, "connected") ==>
      r == SendHandshake(a.(status := Connected))
    ensures reading == Corrected && m.kind == KindStatus && Contains(m.payload, "disconnected") ==>
      r == a.(status := Disconnected)
  {
    if m.kind == KindStatus then
      match ClassifyBy(reading, m.payload)
      case Some(Connected) => SendHandshake(a.(status := Connected))
      case Some(s) => a.(status := s)
      case None => a
    else if m.kind == KindRawText then HandleLightning(a, m.payload, parse)
    else a
  }

  /** Process envelopes in the order given. */
  function HandleAll(a: App, ms: seq<Envelope>, parse: StrikeParser, reading: Reading): (r: App)
    ensures r.visible == a.visible
    ensures r.manager.Some? <==> a.manager.Some?
    ensures |a.strikes| <= MaxStrikes ==> |r.strikes| <= MaxStrikes
    ensures Valid(a) && a.manager.Some? ==> Valid(r)
    decreases |ms|
  {
    if |ms| == 0 then a else HandleAll(HandleMessage(a, ms[0], parse, reading), ms[1..], parse, reading)
  }

  /** Take every envelope waiting at the manager, then process them in the
      order received. Without a manager nothing changes. */
  function HandleWebsocketMessages(a: App, parse: StrikeParser, reading: Reading): (r: App)
    ensures a.manager.None? ==> r == a
    ensures a.manager.Some? ==>
      r == HandleAll(a.(manager := Some(a.manager.value.(events := []))), a.manager.value.events, parse, reading)
  {
    match a.manager
    case None => a
    case Some(link) => HandleAll(a.(manager := Some(link.(events := []))), link.events, parse, reading)
  }
}
