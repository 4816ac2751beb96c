/** Whole runs through the manager, its worker and the application, with the
    network's answers chosen: a connection that succeeds and delivers one
    frame, one that is refused, and hiding the popup while connected. */
module Scenarios {
  import opened Prelude
  import opened Json
  import opened Blitzortung
  import opened WebSocket
  import opened WebSocketProofs
  import opened Trrpy
  import opened LzwProofs
  import opened TrrpyProofs

  /** The worker thread running one iteration for the application's manager. */
  function RunWorker(a: App, dial: seq<Dial>, read: Read, parse: Parser): (r: App)
    requires a.manager.Some? && |dial| == |a.manager.value.commands|
    ensures r.manager.Some? && r.status == a.status && r.strikes == a.strikes && r.visible == a.visible
    ensures r.manager.value == Tick(a.manager.value, dial, read, parse)
  {
    a.(manager := Some(Tick(a.manager.value, dial, read, parse)))
  }

  lemma DrainOne(w: Worker, cmd: Command, dial: Dial)
    ensures Drain(w, [cmd], [dial]) == Apply(w, cmd, dial)
  {
    assert [cmd][1..] == [] && [dial][1..] == [];
  }

  /** Connect, the handshake succeeds, and a text frame that is not a
      structured message arrives: polling yields the connected report and
      then the frame's text, which expands to itself when it is all literal
      code points. */
  lemma ConnectThenReceive(url: string, text: string, parse: Parser)
    requires parse(text).None?
    requires forall i :: 0 <= i < |text| ==> text[i] as int < 256
    ensures
      var l := Tick(Enqueue(NewLink(), Connect(url)), [Accepted], Received(Text(text)), parse);
      && l.worker.connected
      && PollAll(l) == [StatusEnvelope(ReportConnected(url)), Envelope(KindRawText, text)]
      && Decode(PollAll(l)[1].payload) == text
  {
    var l := Tick(Enqueue(NewLink(), Connect(url)), [Accepted], Received(Text(text)), parse);
    ConnectThenReceiveLink(url, text, parse);
    PollAllInOrder(l);
    LiteralsDecodeToThemselves(text);
  }

  /** The manager after that iteration: nothing queued, a connected worker
      that has written nothing, and the two envelopes waiting in order. */
  lemma ConnectThenReceiveLink(url: string, text: string, parse: Parser)
    requires parse(text).None?
    ensures Tick(Enqueue(NewLink(), Connect(url)), [Accepted], Received(Text(text)), parse) ==
      Link([], Worker(true, []), [StatusEnvelope(ReportConnected(url)), Envelope(KindRawText, text)])
  {
    ConnectThenRead(url, text, parse);
    assert Enqueue(NewLink(), Connect(url)) == Link([Connect(url)], Worker(false, []), []);
  }

  /** The worker's iteration: the accepted Connect reports, then the text
      frame is read on the new connection. */
  lemma ConnectThenRead(url: string, text: string, parse: Parser)
    requires parse(text).None?
    ensures Iterate(Worker(false, []), [Connect(url)], [Accepted], Received(Text(text)), parse) ==
      Emit(Worker(true, []), [StatusEnvelope(ReportConnected(url)), Envelope(KindRawText, text)])
  {
    var up := Worker(true, []);
    ConnectAccepted(url);
    assert OnRead(up, Received(Text(text)), parse) == Emit(up, [Envelope(KindRawText, text)]) by {
      assert HandleIncoming(up, Text(text), parse) == Emit(up, [Envelope(KindRawText, text)]);
    }
  }

  /** An accepted Connect from a fresh worker connects and reports once. */
  lemma ConnectAccepted(url: string)
    ensures Drain(Worker(false, []), [Connect(url)], [Accepted]) ==
      Emit(Worker(true, []), [StatusEnvelope(ReportConnected(url))])
  {
    DrainOne(Worker(false, []), Connect(url), Accepted);
  }

  /** Connect and the handshake is refused: exactly one envelope, a failure
      report that shows the error and the url, and no connection, so the
      frame offered is never read. */
  lemma ConnectRefused(url: string, error: string, read: Read, parse: Parser)
    ensures
      var l := Tick(Enqueue(NewLink(), Connect(url)), [Refused(error)], read, parse);
      && !l.worker.connected
      && PollAll(l) == [StatusEnvelope(ReportFailed(error, url))]
      && Contains(PollAll(l)[0].payload, "failed")
      && Contains(PollAll(l)[0].payload, Escape(error))
  {
    var l0 := Enqueue(NewLink(), Connect(url));
    assert l0.commands == [Connect(url)];
    var report := StatusEnvelope(ReportFailed(error, url));
    DrainOne(l0.worker, Connect(url), Refused(error));
    assert Drain(l0.worker, [Connect(url)], [Refused(error)]) == Emit(l0.worker, [report]);
    var l := Tick(l0, [Refused(error)], read, parse);
    assert l.events == [report];
    PollAllInOrder(l);
    FailedMentions(error, url);
  }

  /** From a connected application, hiding the popup shows Disconnected at
      once, the worker then closes the connection and reports it, and the
      report keeps the status at Disconnected with no handshake sent. Read
      by the classification as written, the same report turns the status
      back to Connected and queues a handshake for the closed connection. */
  lemma HideWhileConnected(a: App, wparse: Parser, sparse: StrikeParser)
    requires a.visible && a.manager.Some?
    requires a.manager.value.commands == [] && a.manager.value.events == []
    requires a.manager.value.worker.connected
    ensures
      var hidden := SetPopupVisible(a, false);
      var ran := RunWorker(hidden, [Accepted], Idle, wparse);
      var handled := HandleWebsocketMessages(ran, sparse, Corrected);
      var misread := HandleWebsocketMessages(ran, sparse, AsWritten);
      && hidden.status == Disconnected
      && ran.manager.value.events == [StatusEnvelope(ReportDisconnected)]
      && ran.manager.value.worker.written == a.manager.value.worker.written + [WireClose]
      && !ran.manager.value.worker.connected
      && handled.status == Disconnected
      && handled.manager.value.commands == []
      && misread.status == Connected
      && misread.manager.value.commands == [SendRaw(Handshake)]
  {
    HideThenRun(a, wparse);
    var ran := RunWorker(SetPopupVisible(a, false), [Accepted], Idle, wparse);
    HandleReportBothWays(ran, sparse);
  }

  /** Hiding, then one worker iteration: the worker closes the connection and
      leaves exactly the disconnection report waiting. */
  lemma HideThenRun(a: App, wparse: Parser)
    requires a.visible && a.manager.Some?
    requires a.manager.value.commands == [] && a.manager.value.events == []
    requires a.manager.value.worker.connected
    ensures SetPopupVisible(a, false).status == Disconnected
    ensures RunWorker(SetPopupVisible(a, false), [Accepted], Idle, wparse).manager.value ==
      Link([], Worker(false, a.manager.value.worker.written + [WireClose]), [StatusEnvelope(ReportDisconnected)])
  {
    var w := a.manager.value.worker;
    var report := StatusEnvelope(ReportDisconnected);
    var hidden := SetPopupVisible(a, false);
    assert hidden.status == Disconnected && hidden.manager.value == Link([Disconnect], w, []);
    DrainOne(w, Disconnect, Accepted);
    assert Drain(w, [Disconnect], [Accepted]) == Emit(Worker(false, w.written + [WireClose]), [report]);
  }

  /** Handling a lone waiting disconnection report under each reading. */
  lemma HandleReportBothWays(ran: App, sparse: StrikeParser)
    requires ran.manager.Some? && ran.manager.value.commands == []
    requires ran.manager.value.events == [StatusEnvelope(ReportDisconnected)]
    ensures HandleWebsocketMessages(ran, sparse, Corrected).status == Disconnected
    ensures HandleWebsocketMessages(ran, sparse, Corrected).manager.value.commands == []
    ensures HandleWebsocketMessages(ran, sparse, AsWritten).status == Connected
    ensures HandleWebsocketMessages(ran, sparse, AsWritten).manager.value.commands == [SendRaw(Handshake)]
  {
    var report := StatusEnvelope(ReportDisconnected);
    var emptied := ran.(manager := Some(ran.manager.value.(events := [])));
    DisconnectReportResendsHandshake(emptied, sparse);
    assert HandleWebsocketMessages(ran, sparse, Corrected) == HandleAll(emptied, [report], sparse, Corrected);
    assert HandleWebsocketMessages(ran, sparse, AsWritten) == HandleAll(emptied, [report], sparse, AsWritten);
  }
}
