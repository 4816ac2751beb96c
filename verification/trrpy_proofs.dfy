/** Properties of the application that relate several operations: what it
    keeps true of itself, which strikes it shows, which status it ends in and
    which handshakes it asks for after a batch of envelopes. */
module TrrpyProofs {
  import opened Prelude
  import opened Blitzortung
  import opened WebSocket
  import opened Trrpy
  import opened WebSocketProofs

  /** Every user-facing operation keeps the application's invariant. */
  lemma OperationsKeepValid(a: App, visible: bool)
    requires Valid(a)
    ensures Valid(Default())
    ensures Valid(ConnectBlitzortung(a))
    ensures Valid(DisconnectBlitzortung(a))
    ensures Valid(SetPopupVisible(a, visible))
    ensures Valid(SendHandshake(a))
  {
  }

  /** Showing (or hiding) twice is showing (or hiding) once. */
  lemma SetPopupVisibleIdempotent(a: App, visible: bool)
    ensures SetPopupVisible(SetPopupVisible(a, visible), visible) == SetPopupVisible(a, visible)
  {
  }

  /** Showing a hidden popup that already has a manager keeps that manager,
      with a single Connect to the first server added behind its pending
      commands. */
  lemma ShowReusesManager(a: App)
    requires !a.visible && a.manager.Some?
    ensures SetPopupVisible(a, true).manager.value.worker == a.manager.value.worker
    ensures SetPopupVisible(a, true).manager.value.events == a.manager.value.events
    ensures SetPopupVisible(a, true).manager.value.commands == a.manager.value.commands + [Connect(Servers[0])]
  {
  }

  /** Appending strike lines one by one. */
  function PushAll(lines: seq<StrikeLine>, more: seq<StrikeLine>): seq<StrikeLine>
    decreases |more|
  {
    if |more| == 0 then lines else PushAll(PushStrike(lines, more[0]), more[1..])
  }

  /** The newest `MaxStrikes` entries of a list (all of it when shorter). */
  function Newest(lines: seq<StrikeLine>): seq<StrikeLine>
  {
    if |lines| <= MaxStrikes then lines else lines[|lines| - MaxStrikes..]
  }

  /** After any number of pushes the list holds the most recent strikes
      received, oldest first, and at most `MaxStrikes` of them. */
  lemma {:induction false} PushAllKeepsNewest(lines: seq<StrikeLine>, more: seq<StrikeLine>)
    requires |lines| <= MaxStrikes
    ensures PushAll(lines, more) == Newest(lines + more)
    decreases |more|
  {
    if |more| > 0 {
      var next := PushStrike(lines, more[0]);
      PushAllKeepsNewest(next, more[1..]);
      assert lines + more == lines + [more[0]] + more[1..];
      if |lines| == MaxStrikes {
        assert next + more[1..] == (lines + more)[1..];
      }
    }
  }

  /** The strike lines a batch of envelopes contributes: one per `raw_text`
      envelope whose expansion parses, in order. */
  function StrikesIn(ms: seq<Envelope>, parse: StrikeParser): seq<StrikeLine>
    decreases |ms|
  {
    if |ms| == 0 then []
    else
      var here := if ms[0].kind == KindRawText && parse(Decode(ms[0].payload)).Some?
        then [LineOf(parse(Decode(ms[0].payload)).value)] else [];
      here + StrikesIn(ms[1..], parse)
  }

  /** The handshakes a batch of envelopes asks for: one per status envelope
      read as Connected, in order. */
  function HandshakesFor(ms: seq<Envelope>, reading: Reading): seq<Command>
    decreases |ms|
  {
    if |ms| == 0 then [] else ShakeFor(ms[0], reading) + HandshakesFor(ms[1..], reading)
  }

  /** The handshake one envelope asks for, if any. */
  function ShakeFor(m: Envelope, reading: Reading): seq<Command>
  {
    if m.kind == KindStatus && ClassifyBy(reading, m.payload) == Some(Connected) then [SendRaw(Handshake)] else []
  }

  /** One envelope appends its handshake, if any, to the manager's commands
      and changes nothing else of the manager or the popup. */
  lemma MessageHandshake(a: App, m: Envelope, parse: StrikeParser, reading: Reading)
    requires a.manager.Some?
    ensures HandleMessage(a, m, parse, reading).manager ==
      Some(a.manager.value.(commands := a.manager.value.commands + ShakeFor(m, reading)))
    ensures HandleMessage(a, m, parse, reading).visible == a.visible
  {
    if ShakeFor(m, reading) == [] {
      assert a.manager.value.commands + [] == a.manager.value.commands;
    }
  }

  /** The status indicator after a batch: the last status any envelope
      classifies as, or the one before the batch when none does. */
  function LastStatus(start: Status, ms: seq<Envelope>, reading: Reading): Status
    decreases |ms|
  {
    if |ms| == 0 then start
    else
      var here := if ms[0].kind == KindStatus && ClassifyBy(reading, ms[0].payload).Some?
        then ClassifyBy(reading, ms[0].payload).value else start;
      LastStatus(here, ms[1..], reading)
  }

  /** Processing a batch pushes the strike lines it carries, in order. */
  lemma {:induction false} HandleAllStrikes(a: App, ms: seq<Envelope>, parse: StrikeParser, reading: Reading)
    ensures HandleAll(a, ms, parse, reading).strikes == PushAll(a.strikes, StrikesIn(ms, parse))
    decreases |ms|
  {
    if |ms| > 0 {
      var m := ms[0];
      HandleAllStrikes(HandleMessage(a, m, parse, reading), ms[1..], parse, reading);
      var here := if m.kind == KindRawText && parse(Decode(m.payload)).Some?
        then [LineOf(parse(Decode(m.payload)).value)] else [];
      assert HandleMessage(a, m, parse, reading).strikes == PushAll(a.strikes, here);
      PushAllAppend(a.strikes, here, StrikesIn(ms[1..], parse));
    }
  }

  /** After a batch the indicator shows the last status reported in it, as
      classified under the reading in use. */
  lemma {:induction false} HandleAllStatus(a: App, ms: seq<Envelope>, parse: StrikeParser, reading: Reading)
    ensures HandleAll(a, ms, parse, reading).status == LastStatus(a.status, ms, reading)
    decreases |ms|
  {
    if |ms| > 0 {
      HandleAllStatus(HandleMessage(a, ms[0], parse, reading), ms[1..], parse, reading);
    }
  }

  /** A batch asks the manager for exactly one handshake per status envelope
      the reading classifies as Connected (as written, every one mentioning
      "connected"), in order, and touches nothing else of it or of the popup. */
  lemma {:induction false} HandleAllHandshakes(a: App, ms: seq<Envelope>, parse: StrikeParser, reading: Reading)
    requires a.manager.Some?
    ensures HandleAll(a, ms, parse, reading).manager.Some?
    ensures HandleAll(a, ms, parse, reading).manager.value ==
      a.manager.value.(commands := a.manager.value.commands + HandshakesFor(ms, reading))
    ensures HandleAll(a, ms, parse, reading).visible == a.visible
    decreases |ms|
  {
    if |ms| > 0 {
      var b := HandleMessage(a, ms[0], parse, reading);
      MessageHandshake(a, ms[0], parse, reading);
      HandleAllHandshakes(b, ms[1..], parse, reading);
      assert HandleAll(a, ms, parse, reading) == HandleAll(b, ms[1..], parse, reading);
      Regroup(a.manager.value.commands, ShakeFor(ms[0], reading), HandshakesFor(ms[1..], reading));
    }
  }

  /** Pushing two batches is pushing their concatenation. */
  lemma {:induction false} PushAllAppend(lines: seq<StrikeLine>, xs: seq<StrikeLine>, ys: seq<StrikeLine>)
    ensures PushAll(PushAll(lines, xs), ys) == PushAll(lines, xs + ys)
    decreases |xs|
  {
    if |xs| == 0 {
      assert xs + ys == ys;
    } else {
      PushAllAppend(PushStrike(lines, xs[0]), xs[1..], ys);
      PushAllFirst(lines, xs);
      SplitHead(xs, ys);
      PushAllFirst(lines, xs + ys);
    }
  }

  /** Pushing a non-empty batch is pushing its first line, then the rest. */
  lemma PushAllFirst(lines: seq<StrikeLine>, xs: seq<StrikeLine>)
    requires |xs| > 0
    ensures PushAll(lines, xs) == PushAll(PushStrike(lines, xs[0]), xs[1..])
  {
  }

  /** Draining the manager's queue and processing it keeps the invariant,
      and shows the newest strikes of everything received. */
  lemma HandleWebsocketMessagesKeepsValid(a: App, parse: StrikeParser, reading: Reading)
    requires Valid(a)
    ensures Valid(HandleWebsocketMessages(a, parse, reading))
    ensures a.manager.Some? ==> HandleWebsocketMessages(a, parse, reading).manager.Some?
    ensures a.manager.Some? ==>
      HandleWebsocketMessages(a, parse, reading).strikes == Newest(a.strikes + StrikesIn(a.manager.value.events, parse))
    ensures a.manager.Some? ==> HandleWebsocketMessages(a, parse, reading).manager.value.events == []
  {
    if a.manager.Some? {
      var link := a.manager.value;
      var start := a.(manager := Some(link.(events := [])));
      HandleAllStrikes(start, link.events, parse, reading);
      HandleAllHandshakes(start, link.events, parse, reading);
      PushAllKeepsNewest(a.strikes, StrikesIn(link.events, parse));
    }
  }

  /** A message of a kind the application does not know changes nothing,
      however many of them arrive. */
  lemma {:induction false} UnknownKindsIgnored(a: App, ms: seq<Envelope>, parse: StrikeParser, reading: Reading)
    requires forall i :: 0 <= i < |ms| ==> ms[i].kind != KindStatus && ms[i].kind != KindRawText
    ensures HandleAll(a, ms, parse, reading) == a
    decreases |ms|
  {
    if |ms| > 0 {
      UnknownKindsIgnored(a, ms[1..], parse, reading);
    }
  }

  /** The worker's disconnection report reaching a connected application.
      Classified as written, it turns the indicator back to Connected and
      queues one more handshake behind the pending commands, for a socket the
      worker has just closed; classified as intended, it shows Disconnected
      and queues nothing. */
  lemma DisconnectReportResendsHandshake(a: App, parse: StrikeParser)
    requires a.manager.Some?
    ensures
      var b := HandleMessage(a, StatusEnvelope(ReportDisconnected), parse, AsWritten);
      && b.status == Connected
      && b.manager == Some(a.manager.value.(commands := a.manager.value.commands + [SendRaw(Handshake)]))
      && b.strikes == a.strikes && b.visible == a.visible
    ensures HandleMessage(a, StatusEnvelope(ReportDisconnected), parse, Corrected) == a.(status := Disconnected)
  {
    DisconnectReportMisread();
    DisconnectReportRead();
  }
}
