/** What each handler of connection_impl does, as a function on the connection's state.
    Models include/details/connection_impl.hpp.

    Idealisations: cancelling or re-arming the timer voids the pending wait (its handler
    still runs with an error code, which only matters for `handle_ping`); a handler reads
    the clock once; starting an asynchronous operation does not throw. */
module ConnectionSpec {
  import opened Messages

  const MINIMAL_PING_INTERVAL: nat := 100
  const MINIMAL_INACTIVE_TIMEOUT: nat := 100

  /** The clock counts microseconds, settings are in milliseconds. */
  function Milliseconds(n: int): int { n * 1000 }

  /** How messages are framed; a WebSocket may have failed its header checks. */
  datatype Transport = Chunked | Draft76(valid: bool) | Framed(valid: bool)

  /** Everything about a connection that its handlers only read. */
  datatype Config = Config(
    secure: bool,
    name: string,
    single: bool,
    formatters: FormatterData,
    transport: Transport,
    policyData: string,
    pingText: string,
    readTimeout: nat,
    writeTimeout: nat,
    inactiveTimeout: nat,
    pingInterval: nat)
  {
    predicate PrintsHeaders() { transport.Chunked? || transport.valid }
    predicate PrintsStatic() { transport.Chunked? }
    predicate PrintsLast() { !transport.Draft76? }
    predicate PingDisabled() { pingInterval < MINIMAL_PING_INTERVAL || pingText == "" }
    function Idle(): int { Milliseconds(inactiveTimeout) }
    function PingDelay(): int { Milliseconds(pingInterval) }
  }

  datatype Timer = Off | Timeout(at: int) | Ping(at: int) | Inactive(at: int) {
    predicate Idles() { Ping? || Inactive? }
  }

  /** Outstanding asynchronous operations, named by their completion handler. */
  datatype Write = WriteHeaders | WriteMessage | WritePing | WriteClosing
  datatype Read = ReadHandshake | ReadRequest | ReadSome

  /** The outstanding operations without the oldest one that `op` completes. */
  function Without<T(==)>(pending: seq<T>, op: T): seq<T> {
    if pending == [] then []
    else if pending[0] == op then pending[1..]
    else [pending[0]] + Without(pending[1..], op)
  }

  /** What was handed to async_write. */
  datatype Output =
    | HeadersOut | TextOut(text: string) | PingOut | LastOut | StaticOut | ErrorOut | PolicyOut

  datatype RegistryOp = Insert | Remove

  /** Ways in which handle_read_request leaves its try block. */
  datatype RequestOutcome = Malformed | Rejected | PolicyFile | Dispatched

  /** Ways in which `handled` gets past handle_response and init_formatters. */
  datatype ResponseOutcome = Static | Subscribe | Throws | ThrowsHttp

  datatype Event =
    | HandshakeDone(ok: bool, now: int)
    | RequestRead(ok: bool, outcome: RequestOutcome, now: int)
    | Handled(response: ResponseOutcome, accepted: bool, now: int)
    | HandledErrors(http: bool, now: int)
    | Send(entry: Entry, now: int)
    | Close
    | HeadersWritten(ok: bool, now: int)
    | MessageWritten(ok: bool, now: int)
    | PingWritten(ok: bool, now: int)
    | ClosingWritten
    | SomeRead(ok: bool, size: nat)
    | TimerFired(now: int)
    | PingAborted

  predicate OneRemoval(before: seq<RegistryOp>, after: seq<RegistryOp>) {
    after == before || after == before + [Remove]
  }

  datatype Conn = Conn(
    connected: bool,
    writing: bool,
    managed: bool,
    policy: bool,
    single: bool,
    pingDisabled: bool,
    open: bool,                // the socket
    messages: seq<Entry>,
    expires: int,
    timer: Timer,
    abortedPings: nat,         // ping waits cancelled, their handler yet to run with an error
    pendingWrites: seq<Write>,
    pendingReads: seq<Read>,
    invoked: bool,             // the request is with the handler invoker
    sent: seq<Entry>,          // everything ever passed to send
    popped: seq<Entry>,        // everything ever taken off the front of `messages`
    output: seq<Output>,
    registry: seq<RegistryOp>)
  {
    /** Between the two states the registry was asked for nothing, or for a removal. */
    predicate AtMostRemoved(r: Conn) {
      OneRemoval(registry, r.registry)
    }

    function Cancel(): (r: Conn)
      ensures r.registry == registry && r.messages == messages
      ensures r.sent == sent && r.expires == expires && (r.connected ==> connected)
    {
      this.(timer := Off, abortedPings := abortedPings + if timer.Ping? then 1 else 0)
    }

    function Arm(t: Timer): (r: Conn)
      ensures r.registry == registry && r.messages == messages && r.timer == t
      ensures r.sent == sent && r.expires == expires && (r.connected ==> connected)
    {
      Cancel().(timer := t)
    }

    function StartWrite(cfg: Config, w: Write, out: Output, now: int): (r: Conn)
      ensures r.registry == registry && r.messages == messages && r.writing == writing
      ensures r.sent == sent && r.expires == expires && (r.connected ==> connected)
    {
      this.(pendingWrites := pendingWrites + [w], output := output + [out])
      .Arm(Timeout(now + Milliseconds(cfg.writeTimeout)))
    }

    function StartRead(op: Read): (r: Conn)
      ensures r.registry == registry
      ensures r.sent == sent && (r.connected ==> connected)
    {
      this.(pendingReads := pendingReads + [op])
    }

    function Cleanup(cfg: Config): (r: Conn)
      ensures AtMostRemoved(r)
      ensures r.sent == sent && r.expires == expires && r.messages == messages
      ensures !r.connected
    {
      var s := Cancel().(connected := false, open := false);
      if managed && cfg.name != "" then s.(managed := false, registry := registry + [Remove]) else s
    }

    function AfterWriteLast(cfg: Config, now: int): (r: Conn)
      ensures AtMostRemoved(r)
      ensures r.sent == sent && r.expires == expires && r.messages == messages
      ensures r.writing || !r.connected
    {
      if policy || !cfg.PrintsLast() then Cleanup(cfg)
      else this.(writing := true).StartWrite(cfg, WriteClosing, LastOut, now)
    }

    /** A deadline that has passed is renewed. */
    function RenewDeadline(cfg: Config, now: int): (r: Conn)
      ensures r.registry == registry
      ensures r.sent == sent && r.messages == messages
    {
      if expires <= now then this.(expires := now + cfg.Idle()) else this
    }

    function ArmIdle(cfg: Config, now: int): (r: Conn)
      ensures AtMostRemoved(r)
      ensures r.sent == sent && r.expires == expires
      ensures r.messages == messages && (r.writing || !r.connected || r.timer.Idles())
    {
      if !pingDisabled && now + cfg.PingDelay() < expires then Arm(Ping(now + cfg.PingDelay()))
      else if expires - now >= Milliseconds(MINIMAL_INACTIVE_TIMEOUT) then Arm(Inactive(expires))
      else AfterWriteLast(cfg, now)
    }

    function AfterSetupIdle(cfg: Config, now: int): (r: Conn)
      ensures AtMostRemoved(r)
      ensures r.sent == sent
      ensures r.messages == messages && (r.writing || !r.connected || r.timer.Idles())
    {
      RenewDeadline(cfg, now).ArmIdle(cfg, now)
    }

    function AfterSetupInactive(cfg: Config, now: int): (r: Conn)
      ensures AtMostRemoved(r)
      ensures r.sent == sent
      ensures r.messages == messages && (r.writing || !r.connected || r.timer.Idles())
    {
      this.(expires := now + cfg.Idle()).AfterSetupIdle(cfg, now)
    }

    function Pop(): (r: Conn)
      requires messages != []
      ensures r.registry == registry
      ensures r.sent == sent
    {
      this.(messages := messages[1..], popped := popped + [messages[0]])
    }

    function AfterPost(cfg: Config, text: string, now: int): (r: Conn)
      ensures r.registry == registry
      ensures r.sent == sent && r.writing
    {
      this.(writing := true).StartWrite(cfg, WriteMessage, TextOut(text), now)
    }

    /** What ends the loop of write_message. */
    function AfterFront(cfg: Config, now: int): (r: Conn)
      ensures AtMostRemoved(r)
      ensures r.sent == sent
      ensures Skips() || r.writing || !r.connected || (r.messages == [] && r.timer.Idles())
    {
      if !connected || Skips() then this
      else if messages == [] then Cancel().AfterSetupInactive(cfg, now)
      else AfterEntry(cfg, messages[0], now)
    }

    /** The entry at the front, when something comes of it. */
    function AfterEntry(cfg: Config, entry: Entry, now: int): (r: Conn)
      requires messages != []
      ensures AtMostRemoved(r)
      ensures r.sent == sent
      ensures (entry.Post? && entry.message.printed.Nothing?) || r.writing || !r.connected
    {
      if entry.Finish? then Cancel().AfterWriteLast(cfg, now) else AfterPrinted(cfg, entry.message.printed, now)
    }

    function AfterPrinted(cfg: Config, printed: Printed, now: int): (r: Conn)
      requires messages != []
      ensures AtMostRemoved(r)
      ensures r.sent == sent
      ensures printed.Nothing? || r.writing || !r.connected
    {
      match printed
      case Throws => Cancel().Cleanup(cfg)
      case Text(text) => CancelPop().AfterPost(cfg, text, now)
      case Nothing => this
    }

    /** A message of which nothing is printed is passed over. */
    predicate Skips() {
      connected && messages != [] && messages[0].Post? && messages[0].message.printed.Nothing?
    }

    /** The loop of write_message. */
    function AfterWriteMessage(cfg: Config, now: int): (r: Conn)
      decreases |messages|
      ensures AtMostRemoved(r)
      ensures r.sent == sent
      ensures r.writing || !r.connected || (r.messages == [] && r.timer.Idles())
    {
      if Skips() then CancelPop().AfterWriteMessage(cfg, now) else AfterFront(cfg, now)
    }

    function CancelPop(): (r: Conn)
      requires messages != []
      ensures r.registry == registry && r.sent == sent && |r.messages| < |messages|
    {
      Cancel().Pop()
    }

    function AfterWritePing(cfg: Config, now: int): (r: Conn)
      ensures AtMostRemoved(r)
      ensures r.sent == sent
      ensures r.messages == messages && (r.writing || !r.connected || r.timer.Idles())
    {
      if cfg.pingText != "" then this.(writing := true).StartWrite(cfg, WritePing, PingOut, now)
      else this.(pingDisabled := true).AfterSetupIdle(cfg, now)
    }

    function AfterWriteError(cfg: Config, now: int): (r: Conn)
      ensures AtMostRemoved(r)
      ensures r.sent == sent && (r.connected ==> connected)
    {
      if policy then Cleanup(cfg) else StartWrite(cfg, WriteClosing, ErrorOut, now)
    }

    function AfterWritePolicy(cfg: Config, now: int): (r: Conn)
      ensures AtMostRemoved(r)
      ensures r.sent == sent && (r.connected ==> connected)
    {
      if cfg.policyData == "" then Cleanup(cfg)
      else this.(writing := true).StartWrite(cfg, WriteClosing, PolicyOut, now)
    }

    function AfterWriteStatic(cfg: Config, now: int): (r: Conn)
      ensures AtMostRemoved(r)
      ensures r.sent == sent && (r.connected ==> connected)
    {
      if policy || !cfg.PrintsStatic() then Cleanup(cfg)
      else this.(writing := true).StartWrite(cfg, WriteClosing, StaticOut, now)
    }

    function AfterWriteHeaders(cfg: Config, now: int): (r: Conn)
      ensures AtMostRemoved(r)
      ensures r.sent == sent && (r.connected ==> connected)
    {
      if policy || !cfg.PrintsHeaders() then Cleanup(cfg)
      else StartWrite(cfg, WriteHeaders, HeadersOut, now)
    }

    function AfterRegister(cfg: Config, accepted: bool, now: int): (r: Conn)
      ensures AtMostRemoved(r) || (accepted && this.(registry := registry + [Insert]).AtMostRemoved(r))
      ensures r.sent == sent && (r.connected ==> connected)
    {
      if accepted then this.(managed := true, registry := registry + [Insert]).AfterWriteHeaders(cfg, now)
      else Cleanup(cfg)
    }

    /** The part of `handled` that makes the connection a subscriber. */
    function AfterSubscribe(cfg: Config, accepted: bool, now: int): (r: Conn)
      ensures AtMostRemoved(r) || (accepted && this.(registry := registry + [Insert]).AtMostRemoved(r))
      ensures r.sent == sent && (r.connected ==> connected)
    {
      this.(single := cfg.single, pingDisabled := cfg.PingDisabled()).AfterRegister(cfg, accepted, now)
    }

    function AfterReadRequest(cfg: Config, now: int): (r: Conn)
      ensures r.registry == registry
      ensures r.sent == sent && (r.connected ==> connected)
    {
      StartRead(ReadRequest).Arm(Timeout(now + Milliseconds(cfg.readTimeout)))
    }

    function AfterRequestRead(cfg: Config, outcome: RequestOutcome, now: int): (r: Conn)
      ensures AtMostRemoved(r)
      ensures r.sent == sent && (r.connected ==> connected)
    {
      match outcome
      case Malformed => Cleanup(cfg)
      case Rejected => AfterWriteError(cfg, now)
      case PolicyFile => this.(policy := true).AfterWritePolicy(cfg, now)
      case Dispatched => this.(invoked := true)
    }

    function AfterHandled(cfg: Config, response: ResponseOutcome, accepted: bool, now: int): (r: Conn)
      ensures AtMostRemoved(r) || (accepted && this.(registry := registry + [Insert]).AtMostRemoved(r))
      ensures r.sent == sent && (r.connected ==> connected)
    {
      match response
      case Throws => Cleanup(cfg)
      case ThrowsHttp => AfterWriteError(cfg, now)
      case Static => AfterWriteStatic(cfg, now)
      case Subscribe => if cfg.name == "" then AfterWriteError(cfg, now) else AfterSubscribe(cfg, accepted, now)
    }

    /** The completion or call can happen now. */
    predicate Enabled(e: Event) {
      match e
      case HandshakeDone(_, _) => ReadHandshake in pendingReads
      case RequestRead(_, _, _) => ReadRequest in pendingReads
      case Handled(_, _, _) => invoked
      case HandledErrors(_, _) => invoked
      case Send(_, _) => true
      case Close => true
      case HeadersWritten(_, _) => WriteHeaders in pendingWrites
      case MessageWritten(_, _) => WriteMessage in pendingWrites
      case PingWritten(_, _) => WritePing in pendingWrites
      case ClosingWritten => WriteClosing in pendingWrites
      case SomeRead(_, _) => ReadSome in pendingReads
      case TimerFired(now) => !timer.Off? && timer.at <= now
      case PingAborted => abortedPings > 0
    }

    function Written(w: Write): (r: Conn)
      ensures r.registry == registry
      ensures r.sent == sent
    {
      this.(pendingWrites := Without(pendingWrites, w))
    }

    function Done(w: Write): (r: Conn)
      ensures r.registry == registry
      ensures r.sent == sent && r.expires == expires
    {
      Written(w).Cancel()
    }

    /** A message or ping write is over. */
    function Settle(w: Write): (r: Conn)
      ensures r.registry == registry
      ensures r.sent == sent && r.expires == expires
    {
      this.(pendingWrites := Without(pendingWrites, w), writing := false).Cancel()
    }

    function Finished(op: Read): (r: Conn)
      ensures r.registry == registry
      ensures r.sent == sent && (r.connected ==> connected)
    {
      this.(pendingReads := Without(pendingReads, op)).Cancel()
    }

    function OnHandshake(cfg: Config, ok: bool, now: int): (r: Conn)
      ensures AtMostRemoved(r)
      ensures r.sent == sent && (r.connected ==> connected)
    {
      var s := Finished(ReadHandshake);
      if ok then s.AfterReadRequest(cfg, now) else s.Cleanup(cfg)
    }

    function OnReadRequest(cfg: Config, ok: bool, outcome: RequestOutcome, now: int): (r: Conn)
      ensures AtMostRemoved(r)
      ensures r.sent == sent && (r.connected ==> connected)
    {
      var s := Finished(ReadRequest);
      if ok then s.AfterRequestRead(cfg, outcome, now) else s.Cleanup(cfg)
    }

    function TakeInvocation(): (r: Conn)
      ensures r.registry == registry
      ensures r.sent == sent && (r.connected ==> connected)
    {
      this.(invoked := false).Cancel()
    }

    function OnHandledErrors(cfg: Config, http: bool, now: int): (r: Conn)
      ensures AtMostRemoved(r)
      ensures r.sent == sent && (r.connected ==> connected)
    {
      if http then TakeInvocation().AfterWriteError(cfg, now) else TakeInvocation().Cleanup(cfg)
    }

    function Queue(entry: Entry): (r: Conn)
      ensures r.registry == registry
      ensures r.sent == sent + [entry]
    {
      this.(messages := messages + [entry], sent := sent + [entry])
    }

    function OnSend(cfg: Config, entry: Entry, now: int): (r: Conn)
      ensures AtMostRemoved(r)
      ensures r.sent == sent + [entry]
    {
      if !writing && connected then Queue(entry).AfterWriteMessage(cfg, now) else Queue(entry)
    }

    function OnWriteHeaders(cfg: Config, ok: bool, now: int): (r: Conn)
      ensures AtMostRemoved(r)
      ensures r.sent == sent
    {
      var s := Done(WriteHeaders);
      if !ok then s.Cleanup(cfg)
      else if !open then s
      else s.(connected := true).StartRead(ReadSome).AfterWriteMessage(cfg, now)
    }

    function OnWriteMessage(cfg: Config, ok: bool, now: int): (r: Conn)
      ensures AtMostRemoved(r)
      ensures r.sent == sent
    {
      var s := Settle(WriteMessage);
      if !ok then s.Cleanup(cfg)
      else if single then s.AfterWriteLast(cfg, now)
      else s.AfterWriteMessage(cfg, now)
    }

    function OnWritePing(cfg: Config, ok: bool, now: int): (r: Conn)
      ensures AtMostRemoved(r)
      ensures r.sent == sent
    {
      var s := Settle(WritePing);
      if !ok then s.Cleanup(cfg)
      else if messages != [] then s.AfterWriteMessage(cfg, now)
      else s.AfterSetupIdle(cfg, now)
    }

    function OnReadSome(cfg: Config, ok: bool, size: nat): (r: Conn)
      ensures AtMostRemoved(r)
      ensures r.sent == sent
    {
      var s := Finished(ReadSome);
      if ok && size > 0 then s.StartRead(ReadSome) else s.Cleanup(cfg)
    }

    function OnTimer(cfg: Config, now: int): (r: Conn)
      ensures AtMostRemoved(r)
      ensures r.sent == sent
    {
      var s := this.(timer := Off);
      match timer
      case Off => s
      case Timeout(_) => s.Cleanup(cfg)
      case Ping(_) => s.AfterWritePing(cfg, now)
      case Inactive(_) => s.AfterWriteLast(cfg, now)
    }

    function Step(cfg: Config, e: Event): (r: Conn)
      requires Enabled(e)
      ensures AtMostRemoved(r) || (e.Handled? && e.accepted && this.(registry := registry + [Insert]).AtMostRemoved(r))
      ensures r.sent == if e.Send? then sent + [e.entry] else sent
    {
      match e
      case HandshakeDone(ok, now) => OnHandshake(cfg, ok, now)
      case RequestRead(ok, outcome, now) => OnReadRequest(cfg, ok, outcome, now)
      case Handled(response, accepted, now) => TakeInvocation().AfterHandled(cfg, response, accepted, now)
      case HandledErrors(http, now) => OnHandledErrors(cfg, http, now)
      case Send(entry, now) => OnSend(cfg, entry, now)
      case Close => Cleanup(cfg)
      case HeadersWritten(ok, now) => OnWriteHeaders(cfg, ok, now)
      case MessageWritten(ok, now) => OnWriteMessage(cfg, ok, now)
      case PingWritten(ok, now) => OnWritePing(cfg, ok, now)
      case ClosingWritten => Written(WriteClosing).Cleanup(cfg)
      case SomeRead(ok, size) => OnReadSome(cfg, ok, size)
      case TimerFired(now) => OnTimer(cfg, now)
      case PingAborted => this.(abortedPings := abortedPings - 1)
    }
  }

  /** The state `start` leaves a new connection in. */
  function Start(cfg: Config, now: int): Conn {
    var s := Conn(false, false, false, false, false, false, true, [], 0, Off, 0,
                  [], [], false, [], [], [], []);
    if cfg.secure
    then s.StartRead(ReadHandshake).Arm(Timeout(now + Milliseconds(cfg.readTimeout)))
    else s.AfterReadRequest(cfg, now)
  }

  /** All events of a run are enabled when they happen. */
  predicate Possible(cfg: Config, s: Conn, events: seq<Event>)
    decreases |events|
  {
    events == [] || (s.Enabled(events[0]) && Possible(cfg, s.Step(cfg, events[0]), events[1..]))
  }

  function Run(cfg: Config, s: Conn, events: seq<Event>): Conn
    requires Possible(cfg, s, events)
    decreases |events|
  {
    if events == [] then s else Run(cfg, s.Step(cfg, events[0]), events[1..])
  }
}
