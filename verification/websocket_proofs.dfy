/** Properties of the worker and manager that relate several steps: command
    order, how many envelopes a batch of commands produces, frame order, and
    what polling returns. */
module WebSocketProofs {
  import opened Prelude
  import opened WebSocket

  /** Applying `c1 + c2` is applying `c1`, then `c2` from where `c1` left the
      worker, with the envelopes of `c1` first: commands take effect in
      exactly the order they were enqueued. */
  lemma {:induction false} DrainInOrder(w: Worker, c1: seq<Command>, d1: seq<Dial>, c2: seq<Command>, d2: seq<Dial>)
    requires |d1| == |c1| && |d2| == |c2|
    ensures
      var r1 := Drain(w, c1, d1);
      var r2 := Drain(r1.worker, c2, d2);
      Drain(w, c1 + c2, d1 + d2) == Emit(r2.worker, r1.envelopes + r2.envelopes)
    decreases |c1|
  {
    if |c1| == 0 {
      assert c1 + c2 == c2 && d1 + d2 == d2;
    } else {
      var first := Apply(w, c1[0], d1[0]);
      var rest1 := Drain(first.worker, c1[1..], d1[1..]);
      var r2 := Drain(rest1.worker, c2, d2);
      DrainInOrder(first.worker, c1[1..], d1[1..], c2, d2);
      SplitHead(c1, c2);
      SplitHead(d1, d2);
      Regroup(first.envelopes, rest1.envelopes, r2.envelopes);
    }
  }

  lemma SplitHead<T>(a: seq<T>, b: seq<T>)
    requires |a| > 0
    ensures (a + b)[0] == a[0] && (a + b)[1..] == a[1..] + b
  {
  }

  lemma Regroup<T>(a: seq<T>, b: seq<T>, c: seq<T>)
    ensures a + (b + c) == (a + b) + c
  {
  }

  function CountConnects(cmds: seq<Command>): nat
  {
    if |cmds| == 0 then 0 else (if cmds[0].Connect? then 1 else 0) + CountConnects(cmds[1..])
  }

  function CountDisconnects(cmds: seq<Command>): nat
  {
    if |cmds| == 0 then 0 else (if cmds[0].Disconnect? then 1 else 0) + CountDisconnects(cmds[1..])
  }

  /** Every Connect reports exactly once and every Disconnect at most once;
      Send and SendRaw never report. */
  lemma {:induction false} DrainReportCount(w: Worker, cmds: seq<Command>, dial: seq<Dial>)
    requires |dial| == |cmds|
    ensures CountConnects(cmds) <= |Drain(w, cmds, dial).envelopes| <= CountConnects(cmds) + CountDisconnects(cmds)
    decreases |cmds|
  {
    if |cmds| > 0 {
      DrainReportCount(Apply(w, cmds[0], dial[0]).worker, cmds[1..], dial[1..]);
    }
  }

  /** A batch of sends changes no connection and reports nothing. */
  lemma {:induction false} SendsAreSilent(w: Worker, cmds: seq<Command>, dial: seq<Dial>)
    requires |dial| == |cmds|
    requires forall i :: 0 <= i < |cmds| ==> cmds[i].Send? || cmds[i].SendRaw?
    ensures Drain(w, cmds, dial).envelopes == []
    ensures Drain(w, cmds, dial).worker.connected == w.connected
    decreases |cmds|
  {
    if |cmds| > 0 {
      SendsAreSilent(Apply(w, cmds[0], dial[0]).worker, cmds[1..], dial[1..]);
    }
  }

  /** Disconnecting twice reports once: the second disconnect finds no
      connection and does nothing. */
  lemma DisconnectIdempotent(w: Worker)
    ensures DisconnectStep(DisconnectStep(w).worker) == Emit(DisconnectStep(w).worker, [])
    ensures |DisconnectStep(w).envelopes| == (if w.connected then 1 else 0)
  {
  }

  /** Without a connection after the commands, the inbound side is not read:
      whatever the network offers, the iteration is the commands alone. */
  lemma NoReadWhileDisconnected(w: Worker, cmds: seq<Command>, dial: seq<Dial>, read1: Read, read2: Read, parse: Parser)
    requires |dial| == |cmds|
    requires !Drain(w, cmds, dial).worker.connected
    ensures Iterate(w, cmds, dial, read1, parse) == Iterate(w, cmds, dial, read2, parse)
  {
  }

  /** The envelope an inbound text or binary frame turns into. */
  function EnvelopeFor(frame: Frame, parse: Parser): Envelope
    requires frame.Text? || frame.Binary?
  {
    if frame.Binary? then BinaryEnvelope(frame.data)
    else match parse(frame.text)
      case Some(m) => m
      case None => Envelope(KindRawText, frame.text)
  }

  /** Worker iterations with no commands pending, one per read. */
  function Feed(w: Worker, inbound: seq<Read>, parse: Parser): Emit
    decreases |inbound|
  {
    if |inbound| == 0 then Emit(w, [])
    else
      var first := Iterate(w, [], [], inbound[0], parse);
      var rest := Feed(first.worker, inbound[1..], parse);
      Emit(rest.worker, first.envelopes + rest.envelopes)
  }

  /** While connected, text and binary frames arriving in order F1, F2, ...
      become envelopes in the same order, one per frame: none is dropped,
      none reordered, and the connection stays up. */
  lemma {:induction false} FramesKeepOrder(w: Worker, inbound: seq<Read>, parse: Parser)
    requires w.connected
    requires forall i :: 0 <= i < |inbound| ==>
      inbound[i].Received? && (inbound[i].frame.Text? || inbound[i].frame.Binary?)
    ensures Feed(w, inbound, parse).worker == w
    ensures |Feed(w, inbound, parse).envelopes| == |inbound|
    ensures forall i :: 0 <= i < |inbound| ==>
      Feed(w, inbound, parse).envelopes[i] == EnvelopeFor(inbound[i].frame, parse)
    decreases |inbound|
  {
    if |inbound| > 0 {
      OneFrame(w, inbound[0], parse);
      FramesKeepOrder(w, inbound[1..], parse);
      var rest := Feed(w, inbound[1..], parse);
      var all := Feed(w, inbound, parse);
      assert all.worker == w && all.envelopes == [EnvelopeFor(inbound[0].frame, parse)] + rest.envelopes;
      forall i | 0 <= i < |inbound|
        ensures all.envelopes[i] == EnvelopeFor(inbound[i].frame, parse)
      {
        if i > 0 {
          assert inbound[1..][i - 1] == inbound[i];
        }
      }
    }
  }

  /** One iteration with no commands that reads a text or binary frame on a
      connection emits that frame's envelope and keeps the worker. */
  lemma OneFrame(w: Worker, read: Read, parse: Parser)
    requires w.connected && read.Received? && (read.frame.Text? || read.frame.Binary?)
    ensures Iterate(w, [], [], read, parse) == Emit(w, [EnvelopeFor(read.frame, parse)])
  {
    assert Drain(w, [], []) == Emit(w, []);
  }

  /** Poll until nothing is left, collecting what each poll returns. */
  function PollAll(l: Link): seq<Envelope>
    decreases |l.events|
  {
    var (m, l') := Poll(l);
    match m
    case None => []
    case Some(e) => [e] + PollAll(l')
  }

  /** Polling hands the envelopes out in exactly the order they were emitted. */
  lemma {:induction false} PollAllInOrder(l: Link)
    ensures PollAll(l) == l.events
    decreases |l.events|
  {
    if |l.events| > 0 {
      PollAllInOrder(Poll(l).1);
    }
  }

  /** A worker iteration puts its envelopes behind those not yet polled:
      polling after the iteration returns the old envelopes first. */
  lemma TickKeepsPendingFirst(l: Link, dial: seq<Dial>, read: Read, parse: Parser)
    requires |dial| == |l.commands|
    ensures l.events <= PollAll(Tick(l, dial, read, parse))
  {
    PollAllInOrder(Tick(l, dial, read, parse));
  }
}
