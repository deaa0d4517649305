/** What every run of a connection keeps. */
module ConnectionInvariant {
  import opened Messages
  import opened ConnectionSpec

  /** At most one asynchronous write is outstanding, and the idle timer excludes it. */
  ghost predicate OneWrite(s: Conn) {
    && |s.pendingWrites| <= 1
    && (s.timer.Ping? || s.timer.Inactive? ==> s.pendingWrites == [] && !s.writing)
    && (WriteMessage in s.pendingWrites || WritePing in s.pendingWrites ==> s.writing)
    && (s.connected && !s.writing ==> s.pendingWrites == [] && s.messages == [])
    && (s.connected && s.writing ==> s.pendingWrites != [])
    && (s.connected ==> s.open)
  }

  /** Until the response is handled nothing has been written or registered. */
  ghost predicate Early(s: Conn) {
    && s.pendingWrites == [] && !s.connected && !s.writing && !s.managed && !s.single
    && s.registry == [] && s.output == [] && s.popped == []
    && !s.timer.Ping? && !s.timer.Inactive? && s.abortedPings == 0
    && ReadSome !in s.pendingReads
  }

  ghost predicate Stages(s: Conn) {
    && |s.pendingReads| <= 1
    && (s.invoked ==> s.pendingReads == [])
    && (s.invoked || ReadHandshake in s.pendingReads || ReadRequest in s.pendingReads ==> Early(s))
    && (WriteHeaders in s.pendingWrites ==>
          !s.connected && !s.writing && s.pendingReads == [] && s.popped == [] && s.output == [HeadersOut])
  }

  /** The registry saw this connection inserted at most once, and removed at most once after. */
  ghost predicate RegistryOnce(cfg: Config, s: Conn) {
    && (s.registry == [] || s.registry == [Insert] || s.registry == [Insert, Remove])
    && (s.managed <==> s.registry == [Insert])
    && (s.managed ==> cfg.name != "")
    && (s.connected ==> s.managed)
    && (WriteHeaders in s.pendingWrites && s.open ==> s.managed)
    && (WriteMessage in s.pendingWrites ==> s.registry != [])
  }

  /** A ping that is waited for, aborted or being written was not disabled. */
  ghost predicate PingsEnabled(cfg: Config, s: Conn) {
    && (s.registry != [] ==> s.pingDisabled == cfg.PingDisabled())
    && (s.timer.Ping? || s.abortedPings > 0 || WritePing in s.pendingWrites ==>
          s.registry != [] && !s.pingDisabled)
    && (s.timer.Inactive? ==> s.registry != [])
  }

  function TextsOf(output: seq<Output>): seq<string> {
    if output == [] then []
    else
      var last := output[|output| - 1];
      TextsOf(output[..|output| - 1]) + (if last.TextOut? then [last.text] else [])
  }

  ghost predicate Printable(entries: seq<Entry>) {
    forall e <- entries :: e.Post? && !e.message.printed.Throws?
  }

  /** Texts go out in order and once each; they are those of the entries taken so far. */
  ghost predicate Delivered(s: Conn) {
    && s.sent == s.popped + s.messages
    && Printable(s.popped)
    && TextsOf(s.output) == Texts(s.popped)
  }

  /** Nothing that a client would read as a message follows the last-message write. */
  ghost predicate LastIsLast(output: seq<Output>) {
    forall i, j :: 0 <= i < j < |output| && output[i] == LastOut ==> !output[j].TextOut?
  }

  ghost predicate Closing(s: Conn) {
    !s.connected || (s.writing && WriteClosing in s.pendingWrites)
  }

  ghost predicate Ends(cfg: Config, s: Conn) {
    && LastIsLast(s.output)
    && (LastOut in s.output ==> Closing(s) && WriteHeaders !in s.pendingWrites)
    && (s.registry != [] ==> s.single == cfg.single)
    && (s.single && TextsOf(s.output) != [] ==>
          |TextsOf(s.output)| == 1 && (Closing(s) || WriteMessage in s.pendingWrites))
    && (s.registry == [] ==> s.popped == [])
  }

  ghost predicate Inv(cfg: Config, s: Conn) {
    OneWrite(s) && Stages(s) && RegistryOnce(cfg, s) && PingsEnabled(cfg, s) && Delivered(s) && Ends(cfg, s)
  }

  lemma StartKeeps(cfg: Config, now: int)
    ensures Inv(cfg, Start(cfg, now))
  {
  }

  /** What survives inside a handler, and is enough for `Cleanup` to restore the invariant. */
  ghost predicate Weak(cfg: Config, s: Conn) {
    && |s.pendingWrites| <= 1
    && (WriteMessage in s.pendingWrites || WritePing in s.pendingWrites ==> s.writing)
    && (s.connected ==> s.open)
    && Stages(s) && RegistryOnce(cfg, s) && PingsEnabled(cfg, s) && Delivered(s)
    && LastIsLast(s.output)
    && (LastOut in s.output ==> WriteHeaders !in s.pendingWrites)
    && (s.registry != [] ==> s.single == cfg.single)
    && (s.single ==> |TextsOf(s.output)| <= 1)
    && (s.registry == [] ==> s.popped == [])
  }

  /** A handler past the handshake that may start a write. */
  ghost predicate MayWrite(cfg: Config, s: Conn) {
    && Weak(cfg, s) && s.pendingWrites == [] && !s.writing && s.registry != []
    && !s.invoked && ReadHandshake !in s.pendingReads && ReadRequest !in s.pendingReads
  }

  /** ... and may still write messages. */
  ghost predicate MayPost(cfg: Config, s: Conn) {
    && MayWrite(cfg, s)
    && (s.connected ==> LastOut !in s.output && (s.single ==> TextsOf(s.output) == []))
  }

  lemma CleanupKeeps(cfg: Config, s: Conn)
    requires Weak(cfg, s)
    ensures Inv(cfg, s.Cleanup(cfg))
  {
  }

  lemma WriteLastKeeps(cfg: Config, s: Conn, now: int)
    requires MayWrite(cfg, s)
    ensures Inv(cfg, s.AfterWriteLast(cfg, now))
  {
    if s.policy || !cfg.PrintsLast() {
      CleanupKeeps(cfg, s);
    } else {
      assert (s.output + [LastOut])[..|s.output|] == s.output;
    }
  }

  lemma ArmKeeps(cfg: Config, s: Conn, t: Timer)
    requires MayPost(cfg, s) && (s.connected ==> s.messages == [])
    requires t.Inactive? || (t.Ping? && !s.pingDisabled)
    ensures Inv(cfg, s.Arm(t))
  {
  }

  lemma SetupIdleKeeps(cfg: Config, s: Conn, now: int)
    requires MayPost(cfg, s) && (s.connected ==> s.messages == [])
    ensures Inv(cfg, s.AfterSetupIdle(cfg, now))
  {
    ArmIdleKeeps(cfg, s.RenewDeadline(cfg, now), now);
  }

  lemma ArmIdleKeeps(cfg: Config, s: Conn, now: int)
    requires MayPost(cfg, s) && (s.connected ==> s.messages == [])
    ensures Inv(cfg, s.ArmIdle(cfg, now))
  {
    if !s.pingDisabled && now + cfg.PingDelay() < s.expires {
      ArmKeeps(cfg, s, Ping(now + cfg.PingDelay()));
    } else if s.expires - now >= Milliseconds(MINIMAL_INACTIVE_TIMEOUT) {
      ArmKeeps(cfg, s, Inactive(s.expires));
    } else {
      WriteLastKeeps(cfg, s, now);
    }
  }

  lemma SetupInactiveKeeps(cfg: Config, s: Conn, now: int)
    requires MayPost(cfg, s) && (s.connected ==> s.messages == [])
    ensures Inv(cfg, s.AfterSetupInactive(cfg, now))
  {
    SetupIdleKeeps(cfg, s.(expires := now + cfg.Idle()), now);
  }

  lemma PostKeeps(cfg: Config, s: Conn, text: string, now: int)
    requires MayPost(cfg, s) && s.connected && s.messages != []
    requires s.messages[0].Post? && s.messages[0].message.printed == Text(text)
    ensures Inv(cfg, s.Cancel().Pop().AfterPost(cfg, text, now))
  {
    PopKeeps(cfg, s.Cancel());
    assert (s.output + [TextOut(text)])[..|s.output|] == s.output;
  }

  lemma {:induction false} WriteMessageKeeps(cfg: Config, s: Conn, now: int)
    requires MayPost(cfg, s)
    ensures Inv(cfg, s.AfterWriteMessage(cfg, now))
    decreases |s.messages|
  {
    if s.Skips() {
      SkipKeeps(cfg, s);
      WriteMessageKeeps(cfg, s.CancelPop(), now);
    } else if s.connected {
      FrontKeeps(cfg, s, now);
    }
  }

  lemma FrontKeeps(cfg: Config, s: Conn, now: int)
    requires MayPost(cfg, s) && s.connected && !s.Skips()
    ensures Inv(cfg, s.AfterFront(cfg, now))
  {
    if s.messages == [] {
      SetupInactiveKeeps(cfg, s.Cancel(), now);
    } else {
      EntryKeeps(cfg, s, now);
    }
  }

  lemma EntryKeeps(cfg: Config, s: Conn, now: int)
    requires MayPost(cfg, s) && s.connected && s.messages != [] && !s.Skips()
    ensures Inv(cfg, s.AfterEntry(cfg, s.messages[0], now))
  {
    if s.messages[0].Finish? {
      WriteLastKeeps(cfg, s.Cancel(), now);
    } else {
      match s.messages[0].message.printed
      case Throws => CleanupKeeps(cfg, s.Cancel());
      case Text(text) => PostKeeps(cfg, s, text, now);
    }
  }

  lemma PopKeeps(cfg: Config, s: Conn)
    requires MayPost(cfg, s) && s.messages != [] && s.messages[0].Post? && !s.messages[0].message.printed.Throws?
    ensures var t := s.Pop();
      && t.sent == t.popped + t.messages && Printable(t.popped)
      && Texts(t.popped) == Texts(s.popped) +
           (if s.messages[0].message.printed.Text? then [s.messages[0].message.printed.text] else [])
  {
    assert s.messages == [s.messages[0]] + s.messages[1..];
    assert s.Pop().popped[..|s.popped|] == s.popped;
  }

  lemma SkipKeeps(cfg: Config, s: Conn)
    requires MayPost(cfg, s) && s.messages != [] && s.messages[0].Post? && s.messages[0].message.printed.Nothing?
    ensures MayPost(cfg, s.CancelPop())
  {
    PopKeeps(cfg, s.Cancel());
  }

  /** Nothing has been written and no ping was waited for. */
  ghost predicate Silent(s: Conn) {
    && s.pendingWrites == [] && !s.connected && s.output == [] && s.popped == []
    && !s.timer.Ping? && !s.timer.Inactive? && s.abortedPings == 0
  }

  lemma FirstOutput(out: Output)
    requires !out.TextOut?
    ensures TextsOf([out]) == [] && LastIsLast([out])
  {
    assert [out][..0] == [];
  }

  /** The answer of a connection that never subscribed. */
  lemma AnswerKeeps(cfg: Config, s: Conn, out: Output, now: int)
    requires Delivered(s) && Silent(s) && !s.invoked && s.pendingReads == []
    requires s.registry == [] && !s.managed && !s.single && !out.TextOut? && !out.LastOut?
    ensures Inv(cfg, s.StartWrite(cfg, WriteClosing, out, now))
  {
    FirstOutput(out);
    var t := s.StartWrite(cfg, WriteClosing, out, now);
    assert t.output == [out] && t.pendingWrites == [WriteClosing] && t.abortedPings == 0;
    assert OneWrite(t) && Stages(t) && Delivered(t);
  }

  lemma WriteErrorKeeps(cfg: Config, s: Conn, now: int)
    requires Weak(cfg, s) && Early(s) && !s.invoked && s.pendingReads == []
    ensures Inv(cfg, s.AfterWriteError(cfg, now))
  {
    if s.policy {
      CleanupKeeps(cfg, s);
    } else {
      AnswerKeeps(cfg, s, ErrorOut, now);
    }
  }

  lemma OnHandshakeKeeps(cfg: Config, s: Conn, ok: bool, now: int)
    requires Inv(cfg, s) && ReadHandshake in s.pendingReads
    ensures Inv(cfg, s.OnHandshake(cfg, ok, now))
  {
    if !ok { CleanupKeeps(cfg, s.Finished(ReadHandshake)); }
  }

  lemma OnReadRequestKeeps(cfg: Config, s: Conn, ok: bool, outcome: RequestOutcome, now: int)
    requires Inv(cfg, s) && ReadRequest in s.pendingReads
    ensures Inv(cfg, s.OnReadRequest(cfg, ok, outcome, now))
  {
    if !ok {
      CleanupKeeps(cfg, s.Finished(ReadRequest));
    } else {
      RequestReadKeeps(cfg, s.Finished(ReadRequest), outcome, now);
    }
  }

  lemma RequestReadKeeps(cfg: Config, s: Conn, outcome: RequestOutcome, now: int)
    requires Weak(cfg, s) && Early(s) && !s.invoked && s.pendingReads == []
    ensures Inv(cfg, s.AfterRequestRead(cfg, outcome, now))
  {
    match outcome
    case Malformed => CleanupKeeps(cfg, s);
    case Rejected => WriteErrorKeeps(cfg, s, now);
    case PolicyFile => PolicyKeeps(cfg, s, now);
    case Dispatched => DispatchKeeps(cfg, s);
  }

  lemma PolicyKeeps(cfg: Config, s: Conn, now: int)
    requires Weak(cfg, s) && Early(s) && !s.invoked && s.pendingReads == []
    ensures Inv(cfg, s.(policy := true).AfterWritePolicy(cfg, now))
  {
    var t := s.(policy := true);
    if cfg.policyData == "" {
      CleanupKeeps(cfg, t);
    } else {
      AnswerKeeps(cfg, t.(writing := true), PolicyOut, now);
    }
  }

  lemma DispatchKeeps(cfg: Config, s: Conn)
    requires Weak(cfg, s) && Early(s) && !s.invoked && s.pendingReads == []
    ensures Inv(cfg, s.(invoked := true))
  {
  }

  lemma HandledKeeps(cfg: Config, s: Conn, response: ResponseOutcome, accepted: bool, now: int)
    requires Weak(cfg, s) && Early(s) && !s.invoked && s.pendingReads == []
    ensures Inv(cfg, s.AfterHandled(cfg, response, accepted, now))
  {
    match response
    case Throws => CleanupKeeps(cfg, s);
    case ThrowsHttp => WriteErrorKeeps(cfg, s, now);
    case Static =>
      if s.policy || !cfg.PrintsStatic() { CleanupKeeps(cfg, s); } else { AnswerKeeps(cfg, s.(writing := true), StaticOut, now); }
    case Subscribe =>
      if cfg.name == "" { WriteErrorKeeps(cfg, s, now); } else { SubscribeKeeps(cfg, s, accepted, now); }
  }

  lemma SubscribeKeeps(cfg: Config, s: Conn, accepted: bool, now: int)
    requires Weak(cfg, s) && Early(s) && !s.invoked && s.pendingReads == [] && cfg.name != ""
    ensures Inv(cfg, s.AfterSubscribe(cfg, accepted, now))
  {
    var t := s.(single := cfg.single, pingDisabled := cfg.PingDisabled());
    if accepted {
      RegisterKeeps(cfg, t, now);
    } else {
      CleanupKeeps(cfg, t);
    }
  }

  lemma RegisterKeeps(cfg: Config, s: Conn, now: int)
    requires Weak(cfg, s) && Early(s.(single := false)) && !s.invoked && s.pendingReads == [] && cfg.name != ""
    requires s.single == cfg.single && s.pingDisabled == cfg.PingDisabled()
    ensures Inv(cfg, s.AfterRegister(cfg, true, now))
  {
    var t := s.(managed := true, registry := s.registry + [Insert]);
    if s.policy || !cfg.PrintsHeaders() {
      CleanupKeeps(cfg, t);
    } else {
      HeadersKeep(cfg, t, now);
    }
  }

  lemma HeadersKeep(cfg: Config, s: Conn, now: int)
    requires Delivered(s) && Silent(s) && !s.writing && !s.invoked && s.pendingReads == []
    requires s.registry == [Insert] && s.managed && cfg.name != ""
    requires s.single == cfg.single && s.pingDisabled == cfg.PingDisabled()
    ensures Inv(cfg, s.StartWrite(cfg, WriteHeaders, HeadersOut, now))
  {
    FirstOutput(HeadersOut);
    var t := s.StartWrite(cfg, WriteHeaders, HeadersOut, now);
    assert t.output == [HeadersOut] && t.pendingWrites == [WriteHeaders] && t.abortedPings == 0;
    assert OneWrite(t) && Stages(t) && Delivered(t);
  }

  lemma OnHandledKeeps(cfg: Config, s: Conn, response: ResponseOutcome, accepted: bool, now: int)
    requires Inv(cfg, s) && s.invoked
    ensures Inv(cfg, s.TakeInvocation().AfterHandled(cfg, response, accepted, now))
  {
    HandledKeeps(cfg, s.TakeInvocation(), response, accepted, now);
  }

  lemma OnHandledErrorsKeeps(cfg: Config, s: Conn, http: bool, now: int)
    requires Inv(cfg, s) && s.invoked
    ensures Inv(cfg, s.OnHandledErrors(cfg, http, now))
  {
    if http {
      WriteErrorKeeps(cfg, s.TakeInvocation(), now);
    } else {
      CleanupKeeps(cfg, s.TakeInvocation());
    }
  }

  lemma OnClosingKeeps(cfg: Config, s: Conn)
    requires Inv(cfg, s) && WriteClosing in s.pendingWrites
    ensures Inv(cfg, s.Written(WriteClosing).Cleanup(cfg))
  {
    CleanupKeeps(cfg, s.Written(WriteClosing));
  }

  lemma PingAbortedKeeps(cfg: Config, s: Conn)
    requires Inv(cfg, s) && s.abortedPings > 0
    ensures Inv(cfg, s.(abortedPings := s.abortedPings - 1))
  {
  }

  lemma OnSendKeeps(cfg: Config, s: Conn, entry: Entry, now: int)
    requires Inv(cfg, s)
    ensures Inv(cfg, s.OnSend(cfg, entry, now))
  {
    assert s.Queue(entry).sent == s.popped + s.Queue(entry).messages;
    if !s.writing && s.connected { WriteMessageKeeps(cfg, s.Queue(entry), now); }
  }

  lemma OnWriteHeadersKeeps(cfg: Config, s: Conn, ok: bool, now: int)
    requires Inv(cfg, s) && WriteHeaders in s.pendingWrites
    ensures Inv(cfg, s.OnWriteHeaders(cfg, ok, now))
  {
    var t := s.Done(WriteHeaders);
    if !ok {
      CleanupKeeps(cfg, t);
    } else if s.open {
      WriteMessageKeeps(cfg, t.(connected := true).StartRead(ReadSome), now);
    }
  }

  lemma OnWriteMessageKeeps(cfg: Config, s: Conn, ok: bool, now: int)
    requires Inv(cfg, s) && WriteMessage in s.pendingWrites
    ensures Inv(cfg, s.OnWriteMessage(cfg, ok, now))
  {
    var t := s.Settle(WriteMessage);
    if !ok {
      CleanupKeeps(cfg, t);
    } else if s.single {
      WriteLastKeeps(cfg, t, now);
    } else {
      WriteMessageKeeps(cfg, t, now);
    }
  }

  lemma OnWritePingKeeps(cfg: Config, s: Conn, ok: bool, now: int)
    requires Inv(cfg, s) && WritePing in s.pendingWrites
    ensures Inv(cfg, s.OnWritePing(cfg, ok, now))
  {
    var t := s.Settle(WritePing);
    if !ok {
      CleanupKeeps(cfg, t);
    } else if s.messages != [] {
      WriteMessageKeeps(cfg, t, now);
    } else {
      SetupIdleKeeps(cfg, t, now);
    }
  }

  lemma OnReadSomeKeeps(cfg: Config, s: Conn, ok: bool, size: nat)
    requires Inv(cfg, s) && ReadSome in s.pendingReads
    ensures Inv(cfg, s.OnReadSome(cfg, ok, size))
  {
    if !ok || size == 0 { CleanupKeeps(cfg, s.Finished(ReadSome)); }
  }

  lemma OnTimerKeeps(cfg: Config, s: Conn, now: int)
    requires Inv(cfg, s) && !s.timer.Off?
    ensures Inv(cfg, s.OnTimer(cfg, now))
  {
    var t := s.(timer := Off);
    match s.timer
    case Timeout(_) => CleanupKeeps(cfg, t);
    case Ping(_) => PingKeeps(cfg, t, now);
    case Inactive(_) => WriteLastKeeps(cfg, t, now);
  }

  lemma PingKeeps(cfg: Config, s: Conn, now: int)
    requires MayPost(cfg, s) && !s.pingDisabled && (s.connected ==> s.messages == [])
    ensures Inv(cfg, s.AfterWritePing(cfg, now))
  {
  }

  lemma StepKeeps(cfg: Config, s: Conn, e: Event)
    requires Inv(cfg, s) && s.Enabled(e)
    ensures Inv(cfg, s.Step(cfg, e))
  {
    match e
    case HandshakeDone(ok, now) => OnHandshakeKeeps(cfg, s, ok, now);
    case RequestRead(ok, outcome, now) => OnReadRequestKeeps(cfg, s, ok, outcome, now);
    case Handled(response, accepted, now) => OnHandledKeeps(cfg, s, response, accepted, now);
    case HandledErrors(http, now) => OnHandledErrorsKeeps(cfg, s, http, now);
    case Send(entry, now) => OnSendKeeps(cfg, s, entry, now);
    case Close => CleanupKeeps(cfg, s);
    case HeadersWritten(ok, now) => OnWriteHeadersKeeps(cfg, s, ok, now);
    case MessageWritten(ok, now) => OnWriteMessageKeeps(cfg, s, ok, now);
    case PingWritten(ok, now) => OnWritePingKeeps(cfg, s, ok, now);
    case ClosingWritten => OnClosingKeeps(cfg, s);
    case SomeRead(ok, size) => OnReadSomeKeeps(cfg, s, ok, size);
    case TimerFired(now) => OnTimerKeeps(cfg, s, now);
    case PingAborted => PingAbortedKeeps(cfg, s);
  }
}
