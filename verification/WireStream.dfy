/** What the whole life of a connection puts on the wire, and what a client makes of it. */
module WireStream {
  import opened Messages
  import opened ConnectionSpec
  import opened ConnectionInvariant
  import opened Sequences
  import opened Wrappers
  import WebSocket
  import Chunks

  // The order of outputs.

  predicate Body(o: Output) {
    o.TextOut? || o.PingOut?
  }

  /** Headers, then messages and pings, then at most one last message. */
  ghost predicate Streaming(output: seq<Output>) {
    && output != [] && output[0] == HeadersOut
    && (forall k :: 0 < k < |output| - 1 ==> Body(output[k]))
    && (|output| > 1 ==> Body(output[|output| - 1]) || output[|output| - 1] == LastOut)
  }

  ghost predicate Unfinished(output: seq<Output>) {
    Streaming(output) && output[|output| - 1] != LastOut
  }

  /** Nothing is on its way that could lead to another output. */
  ghost predicate Ended(s: Conn) {
    && !s.timer.Idles() && (s.connected ==> s.writing)
    && (forall w :: w in s.pendingWrites ==> w == WriteClosing)
    && !s.invoked && ReadHandshake !in s.pendingReads && ReadRequest !in s.pendingReads
  }

  ghost predicate Requesting(s: Conn) {
    s.invoked || ReadHandshake in s.pendingReads || ReadRequest in s.pendingReads
  }

  ghost predicate Shaped(s: Conn) {
    || (s.output == [] && (Requesting(s) || Ended(s)))
    || (|s.output| == 1 && !Streaming(s.output) && Ended(s))
    || (Streaming(s.output) && !Requesting(s) && (Unfinished(s.output) || Ended(s)))
  }

  /** Between outputs. */
  ghost predicate Between(s: Conn) {
    Unfinished(s.output) && s.pendingWrites == [] && !Requesting(s)
  }

  lemma Grow(output: seq<Output>, o: Output)
    requires Unfinished(output) && (Body(o) || o == LastOut)
    ensures Streaming(output + [o]) && (Body(o) ==> Unfinished(output + [o]))
  {
  }

  lemma WriteLastShaped(cfg: Config, s: Conn, now: int)
    requires Between(s)
    ensures Shaped(s.AfterWriteLast(cfg, now))
  {
    if !s.policy && cfg.PrintsLast() {
      Grow(s.output, LastOut);
    } else {
      CleanupShaped(cfg, s);
    }
  }

  lemma SetupIdleShaped(cfg: Config, s: Conn, now: int)
    requires Between(s)
    ensures Shaped(s.AfterSetupIdle(cfg, now))
  {
    ArmIdleShaped(cfg, s.RenewDeadline(cfg, now), now);
  }

  lemma SetupInactiveShaped(cfg: Config, s: Conn, now: int)
    requires Between(s)
    ensures Shaped(s.AfterSetupInactive(cfg, now))
  {
    SetupIdleShaped(cfg, s.(expires := now + cfg.Idle()), now);
  }

  lemma ArmIdleShaped(cfg: Config, s: Conn, now: int)
    requires Between(s)
    ensures Shaped(s.ArmIdle(cfg, now))
  {
    if !s.pingDisabled && now + cfg.PingDelay() < s.expires {
      assert s.ArmIdle(cfg, now) == s.Arm(Ping(now + cfg.PingDelay()));
    } else if s.expires - now >= Milliseconds(MINIMAL_INACTIVE_TIMEOUT) {
      assert s.ArmIdle(cfg, now) == s.Arm(Inactive(s.expires));
    } else {
      WriteLastShaped(cfg, s, now);
    }
  }

  lemma PostShaped(cfg: Config, s: Conn, text: string, now: int)
    requires Between(s)
    ensures Shaped(s.AfterPost(cfg, text, now))
  {
    Grow(s.output, TextOut(text));
  }

  lemma StillBetween(s: Conn)
    requires Between(s)
    ensures Between(s.Cancel()) && (s.messages != [] ==> Between(s.Cancel().Pop()))
  {
  }

  lemma {:induction false} WriteMessageShaped(cfg: Config, s: Conn, now: int)
    requires Between(s)
    ensures Shaped(s.AfterWriteMessage(cfg, now))
    decreases |s.messages|
  {
    StillBetween(s);
    if !s.connected {
    } else if s.messages == [] {
      SetupInactiveShaped(cfg, s.Cancel(), now);
    } else if s.messages[0].Finish? {
      WriteLastShaped(cfg, s.Cancel(), now);
    } else {
      match s.messages[0].message.printed
      case Throws => CleanupShaped(cfg, s.Cancel());
      case Nothing => WriteMessageShaped(cfg, s.Cancel().Pop(), now);
      case Text(text) => PostShaped(cfg, s.Cancel().Pop(), text, now);
    }
  }

  lemma PingShaped(cfg: Config, s: Conn, now: int)
    requires Between(s)
    ensures Shaped(s.AfterWritePing(cfg, now))
  {
    Grow(s.output, PingOut);
    SetupIdleShaped(cfg, s.(pingDisabled := true), now);
  }

  /** A connection that writes something other than its closing is streaming. */
  lemma BusyStreams(cfg: Config, s: Conn)
    requires Inv(cfg, s) && Shaped(s)
    requires s.timer.Idles() || (s.connected && !s.writing) || exists w :: w in s.pendingWrites && w != WriteClosing
    ensures Unfinished(s.output) && !Requesting(s)
  {
  }

  lemma CleanupShaped(cfg: Config, s: Conn)
    requires Shaped(s)
    ensures Shaped(s.Cleanup(cfg))
  {
    var t := s.Cleanup(cfg);
    assert t.output == s.output && t.pendingWrites == s.pendingWrites && Requesting(t) == Requesting(s);
    assert t.timer.Off? && !t.connected;
    assert Ended(s) ==> Ended(t);
  }

  lemma RefusedShaped(cfg: Config, s: Conn)
    requires s.output == [] && s.pendingWrites == [] && !Requesting(s)
    ensures Shaped(s.Cleanup(cfg))
  {
  }

  lemma ClosingShaped(cfg: Config, s: Conn, out: Output, now: int)
    requires s.output == [] && s.pendingWrites == [] && !s.connected && !Requesting(s) && out != HeadersOut
    ensures Shaped(s.StartWrite(cfg, WriteClosing, out, now))
  {
  }

  lemma WriteErrorShaped(cfg: Config, s: Conn, now: int)
    requires s.output == [] && s.pendingWrites == [] && !s.connected && !Requesting(s)
    ensures Shaped(s.AfterWriteError(cfg, now))
  {
    RefusedShaped(cfg, s);
    ClosingShaped(cfg, s, ErrorOut, now);
  }

  lemma HandshakeShaped(cfg: Config, s: Conn, ok: bool, now: int)
    requires Inv(cfg, s) && ReadHandshake in s.pendingReads
    ensures Shaped(s.OnHandshake(cfg, ok, now))
  {
    if !ok {
      RefusedShaped(cfg, s.Finished(ReadHandshake));
    }
  }

  lemma RequestReadShaped(cfg: Config, s: Conn, ok: bool, outcome: RequestOutcome, now: int)
    requires Inv(cfg, s) && ReadRequest in s.pendingReads
    ensures Shaped(s.OnReadRequest(cfg, ok, outcome, now))
  {
    var t := s.Finished(ReadRequest);
    RefusedShaped(cfg, t);
    if ok {
      match outcome
      case Malformed =>
      case Rejected => WriteErrorShaped(cfg, t, now);
      case PolicyFile =>
        RefusedShaped(cfg, t.(policy := true));
        ClosingShaped(cfg, t.(policy := true, writing := true), PolicyOut, now);
      case Dispatched =>
    }
  }

  lemma HandledErrorsShaped(cfg: Config, s: Conn, http: bool, now: int)
    requires Inv(cfg, s) && s.invoked
    ensures Shaped(s.OnHandledErrors(cfg, http, now))
  {
    RefusedShaped(cfg, s.TakeInvocation());
    WriteErrorShaped(cfg, s.TakeInvocation(), now);
  }

  lemma HandledShaped(cfg: Config, s: Conn, response: ResponseOutcome, accepted: bool, now: int)
    requires Inv(cfg, s) && s.invoked
    ensures Shaped(s.TakeInvocation().AfterHandled(cfg, response, accepted, now))
  {
    var t := s.TakeInvocation();
    RefusedShaped(cfg, t);
    match response
    case Throws =>
    case ThrowsHttp => WriteErrorShaped(cfg, t, now);
    case Static => ClosingShaped(cfg, t.(writing := true), StaticOut, now);
    case Subscribe =>
      WriteErrorShaped(cfg, t, now);
      SubscribeShaped(cfg, t, accepted, now);
  }

  lemma SubscribeShaped(cfg: Config, s: Conn, accepted: bool, now: int)
    requires s.output == [] && s.pendingWrites == [] && !s.connected && !Requesting(s) && !s.timer.Idles()
    ensures Shaped(s.AfterSubscribe(cfg, accepted, now))
  {
    var t := s.(single := cfg.single, pingDisabled := cfg.PingDisabled());
    RefusedShaped(cfg, t);
    RefusedShaped(cfg, t.(managed := true, registry := t.registry + [Insert]));
  }

  lemma HeadersWrittenShaped(cfg: Config, s: Conn, ok: bool, now: int)
    requires Inv(cfg, s) && Shaped(s) && WriteHeaders in s.pendingWrites
    ensures Shaped(s.OnWriteHeaders(cfg, ok, now))
  {
    BusyStreams(cfg, s);
    WriteMessageShaped(cfg, s.Done(WriteHeaders).(connected := true).StartRead(ReadSome), now);
  }

  lemma MessageWrittenShaped(cfg: Config, s: Conn, ok: bool, now: int)
    requires Inv(cfg, s) && Shaped(s) && WriteMessage in s.pendingWrites
    ensures Shaped(s.OnWriteMessage(cfg, ok, now))
  {
    BusyStreams(cfg, s);
    WriteLastShaped(cfg, s.Settle(WriteMessage), now);
    WriteMessageShaped(cfg, s.Settle(WriteMessage), now);
  }

  lemma PingWrittenShaped(cfg: Config, s: Conn, ok: bool, now: int)
    requires Inv(cfg, s) && Shaped(s) && WritePing in s.pendingWrites
    ensures Shaped(s.OnWritePing(cfg, ok, now))
  {
    BusyStreams(cfg, s);
    WriteMessageShaped(cfg, s.Settle(WritePing), now);
    SetupIdleShaped(cfg, s.Settle(WritePing), now);
  }

  lemma StepShaped(cfg: Config, s: Conn, e: Event)
    requires Inv(cfg, s) && Shaped(s) && s.Enabled(e)
    ensures Shaped(s.Step(cfg, e))
  {
    match e
    case HandshakeDone(ok, now) => HandshakeShaped(cfg, s, ok, now);
    case RequestRead(ok, outcome, now) => RequestReadShaped(cfg, s, ok, outcome, now);
    case HandledErrors(http, now) => HandledErrorsShaped(cfg, s, http, now);
    case Handled(response, accepted, now) => HandledShaped(cfg, s, response, accepted, now);
    case HeadersWritten(ok, now) => HeadersWrittenShaped(cfg, s, ok, now);
    case MessageWritten(ok, now) => MessageWrittenShaped(cfg, s, ok, now);
    case PingWritten(ok, now) => PingWrittenShaped(cfg, s, ok, now);
    case Send(entry, now) => SendShaped(cfg, s, entry, now);
    case TimerFired(now) => TimerShaped(cfg, s, now);
    case Close => CleanupShaped(cfg, s);
    case ClosingWritten => ClosedShaped(cfg, s);
    case SomeRead(ok, size) => SomeReadShaped(cfg, s, ok, size);
    case PingAborted =>
  }

  lemma SendShaped(cfg: Config, s: Conn, entry: Entry, now: int)
    requires Inv(cfg, s) && Shaped(s)
    ensures Shaped(s.OnSend(cfg, entry, now))
  {
    if !s.writing && s.connected {
      BusyStreams(cfg, s);
      WriteMessageShaped(cfg, s.Queue(entry), now);
    }
  }

  lemma TimerShaped(cfg: Config, s: Conn, now: int)
    requires Inv(cfg, s) && Shaped(s) && !s.timer.Off?
    ensures Shaped(s.OnTimer(cfg, now))
  {
    var t := s.(timer := Off);
    match s.timer
    case Timeout(_) => CleanupShaped(cfg, t);
    case Ping(_) =>
      BusyStreams(cfg, s);
      PingShaped(cfg, t, now);
    case Inactive(_) =>
      BusyStreams(cfg, s);
      WriteLastShaped(cfg, t, now);
  }

  lemma ClosedShaped(cfg: Config, s: Conn)
    requires Inv(cfg, s) && Shaped(s) && WriteClosing in s.pendingWrites
    ensures Shaped(s.Written(WriteClosing).Cleanup(cfg))
  {
  }

  lemma SomeReadShaped(cfg: Config, s: Conn, ok: bool, size: nat)
    requires Inv(cfg, s) && Shaped(s) && ReadSome in s.pendingReads
    ensures Shaped(s.OnReadSome(cfg, ok, size))
  {
    var t := s.Finished(ReadSome);
    if !(ok && size > 0) {
      CleanupShaped(cfg, t);
    }
  }

  lemma {:induction false} RunShaped(cfg: Config, s: Conn, events: seq<Event>)
    requires Inv(cfg, s) && Shaped(s) && Possible(cfg, s, events)
    ensures Shaped(Run(cfg, s, events))
    decreases |events|
  {
    if events != [] {
      StepKeeps(cfg, s, events[0]);
      StepShaped(cfg, s, events[0]);
      RunShaped(cfg, s.Step(cfg, events[0]), events[1..]);
    }
  }

  /** In every run a connection writes headers, then messages and pings, then at most one last
      message and nothing after it; or one closing answer; or nothing. */
  lemma OutputOrder(cfg: Config, start: int, events: seq<Event>)
    requires Possible(cfg, Start(cfg, start), events)
    ensures var output := Run(cfg, Start(cfg, start), events).output; Streaming(output) || |output| <= 1
  {
    StartKeeps(cfg, start);
    RunShaped(cfg, Start(cfg, start), events);
  }

  // The bytes after the headers.

  function Payload(cfg: Config, o: Output): string
    requires Body(o)
  {
    if o.TextOut? then o.text else cfg.pingText
  }

  function Payloads(cfg: Config, outputs: seq<Output>): seq<string> {
    if outputs == [] then []
    else (if Body(outputs[0]) then [Payload(cfg, outputs[0])] else []) + Payloads(cfg, outputs[1..])
  }

  const CloseByte := [0x88 as char]

  /** Connections with the older framing take the other branch; nothing is claimed of them. */
  function Bytes(cfg: Config, o: Output): string {
    if Body(o) then
      if cfg.transport.Framed? then WebSocket.Framed(Payload(cfg, o)) else Chunks.Printed(Payload(cfg, o))
    else if o.LastOut? then if cfg.transport.Framed? then CloseByte else Chunks.LastChunk
    else []
  }

  function Wire(cfg: Config, outputs: seq<Output>): string {
    if outputs == [] then [] else Bytes(cfg, outputs[0]) + Wire(cfg, outputs[1..])
  }

  ghost predicate AllBody(outputs: seq<Output>) {
    forall k :: 0 <= k < |outputs| ==> Body(outputs[k])
  }

  /** The outputs after the headers and before a last message. */
  function Middle(output: seq<Output>): seq<Output>
    requires output != []
  {
    var after := output[1..];
    if after != [] && after[|after| - 1] == LastOut then after[..|after| - 1] else after
  }

  lemma {:induction false} WireOfBody(cfg: Config, outputs: seq<Output>)
    requires AllBody(outputs)
    ensures cfg.transport.Framed? ==> Wire(cfg, outputs) == WebSocket.Stream(Payloads(cfg, outputs))
    ensures cfg.transport.Chunked? ==> Wire(cfg, outputs) == Chunks.Stream(Payloads(cfg, outputs))
  {
    if outputs != [] {
      WireOfBody(cfg, outputs[1..]);
      assert Payloads(cfg, outputs)[1..] == Payloads(cfg, outputs[1..]);
    }
  }

  lemma {:induction false} WireAppend(cfg: Config, outputs: seq<Output>, o: Output)
    ensures Wire(cfg, outputs + [o]) == Wire(cfg, outputs) + Bytes(cfg, o)
  {
    if outputs == [] {
      assert [o][1..] == [];
      assert outputs + [o] == [o];
    } else {
      WireAppend(cfg, outputs[1..], o);
      assert (outputs + [o])[1..] == outputs[1..] + [o];
      Assoc(Bytes(cfg, outputs[0]), Wire(cfg, outputs[1..]), Bytes(cfg, o));
    }
  }

  lemma {:induction false} WireIs(cfg: Config, output: seq<Output>)
    requires Streaming(output)
    ensures AllBody(Middle(output))
    ensures Wire(cfg, output[1..]) ==
            Wire(cfg, Middle(output)) + if Unfinished(output) then [] else Bytes(cfg, LastOut)
  {
    var after := output[1..];
    assert forall k :: 0 <= k < |after| ==> after[k] == output[k + 1];
    if !Unfinished(output) {
      assert after == Middle(output) + [LastOut];
      WireAppend(cfg, Middle(output), LastOut);
    }
  }

  /** In every run of a WebSocket connection a client that reads frames by RFC 6455 gets exactly
      the texts and pings written, in order; all that may follow them is the close byte. */
  lemma SocketClientReads(cfg: Config, start: int, events: seq<Event>)
    requires cfg.transport.Framed? && Possible(cfg, Start(cfg, start), events)
    requires HeadersOut in Run(cfg, Start(cfg, start), events).output
    ensures var output := Run(cfg, Start(cfg, start), events).output;
      && output != [] && WebSocket.Decoded(Wire(cfg, Middle(output))) == Some(Payloads(cfg, Middle(output)))
      && Wire(cfg, output[1..]) == Wire(cfg, Middle(output)) + if LastOut in output then CloseByte else []
  {
    var output := Run(cfg, Start(cfg, start), events).output;
    StreamsWithHeaders(cfg, start, events);
    WireIs(cfg, output);
    WireOfBody(cfg, Middle(output));
    WebSocket.StreamDecodes(Payloads(cfg, Middle(output)));
  }

  /** In every run of a plain connection a client that reads chunks by RFC 7230 gets exactly the
      non-empty texts and pings written, in order: with the last-chunk and whatever follows it
      once the last message is out, and before that with any last-chunk yet to come. */
  lemma ChunkClientReads(cfg: Config, start: int, events: seq<Event>, rest: string)
    requires cfg.transport.Chunked? && Possible(cfg, Start(cfg, start), events)
    requires HeadersOut in Run(cfg, Start(cfg, start), events).output
    ensures var output := Run(cfg, Start(cfg, start), events).output;
      && output != []
      && Chunks.ReadBody(Wire(cfg, output[1..]) + (if LastOut in output then rest else Chunks.LastChunk + rest)) ==
           Some((Chunks.NonEmpty(Payloads(cfg, Middle(output))), rest))
  {
    var output := Run(cfg, Start(cfg, start), events).output;
    StreamsWithHeaders(cfg, start, events);
    WireIs(cfg, output);
    WireOfBody(cfg, Middle(output));
    Chunks.StreamReads(Payloads(cfg, Middle(output)), rest);
    Assoc(Wire(cfg, Middle(output)), Chunks.LastChunk, rest);
  }

  lemma StreamsWithHeaders(cfg: Config, start: int, events: seq<Event>)
    requires Possible(cfg, Start(cfg, start), events)
    requires HeadersOut in Run(cfg, Start(cfg, start), events).output
    ensures var output := Run(cfg, Start(cfg, start), events).output;
      Streaming(output) && (Unfinished(output) <==> LastOut !in output)
  {
    OutputOrder(cfg, start, events);
    WithHeaders(Run(cfg, Start(cfg, start), events).output);
  }

  lemma WithHeaders(output: seq<Output>)
    requires (Streaming(output) || |output| <= 1) && HeadersOut in output
    ensures Streaming(output) && (Unfinished(output) <==> LastOut !in output)
  {
    assert |output| == 1 ==> output == [HeadersOut];
    if LastOut in output {
      var k :| 0 <= k < |output| && output[k] == LastOut;
    }
  }
}
