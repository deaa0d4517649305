/** connection_impl as the object it is: handlers that update fields in place. Each method is
    tied to the function in ConnectionSpec that says what the handler does. */
module ConnectionImpl {
  import opened Messages
  import opened ConnectionSpec
  import opened ConnectionInvariant

  class Connection {
    const cfg: Config

    var connected: bool
    var writing: bool
    var managed: bool
    var policy: bool
    var single: bool
    var pingDisabled: bool
    var messages: seq<Entry>
    var expires: int
    var timer: Timer
    var open: bool

    // what the runtime holds for this connection, and its history
    ghost var abortedPings: nat
    ghost var pendingWrites: seq<Write>
    ghost var pendingReads: seq<Read>
    ghost var invoked: bool
    ghost var sent: seq<Entry>
    ghost var popped: seq<Entry>
    ghost var output: seq<Output>
    ghost var registry: seq<RegistryOp>

    ghost function View(): Conn
      reads this
    {
      Conn(connected, writing, managed, policy, single, pingDisabled, open, messages, expires, timer,
           abortedPings, pendingWrites, pendingReads, invoked, sent, popped, output, registry)
    }

    /** What every run keeps; between two handlers it holds. */
    ghost predicate Valid()
      reads this
    {
      Inv(cfg, View())
    }

    constructor (cfg: Config, now: int)
      ensures Valid() && this.cfg == cfg && View() == Start(cfg, now)
    {
      this.cfg := cfg;
      connected, writing, managed, policy, single, pingDisabled := false, false, false, false, false, false;
      messages, expires, timer, open := [], 0, Off, true;
      abortedPings, pendingWrites, pendingReads, invoked := 0, [], [], false;
      sent, popped, output, registry := [], [], [], [];
      new;
      if cfg.secure {
        StartRead(ReadHandshake);
        Arm(Timeout(now + Milliseconds(cfg.readTimeout)));
      } else {
        BeginReadRequest(now);
      }
      assert View() == Start(cfg, now);
      StartKeeps(cfg, now);
    }

    method CancelTimer()
      modifies this`timer, this`abortedPings
      ensures View() == old(View()).Cancel()
    {
      abortedPings := abortedPings + if timer.Ping? then 1 else 0;
      timer := Off;
    }

    method Arm(t: Timer)
      modifies this`timer, this`abortedPings
      ensures View() == old(View()).Arm(t)
    {
      CancelTimer();
      timer := t;
    }

    method AsyncWrite(w: Write, out: Output, now: int)
      modifies this`timer, this`abortedPings, this`pendingWrites, this`output
      ensures View() == old(View()).StartWrite(cfg, w, out, now)
    {
      pendingWrites := pendingWrites + [w];
      output := output + [out];
      Arm(Timeout(now + Milliseconds(cfg.writeTimeout)));
    }

    method StartRead(op: Read)
      modifies this`pendingReads
      ensures View() == old(View()).StartRead(op)
    {
      pendingReads := pendingReads + [op];
    }

    method Cleanup()
      modifies this
      ensures View() == old(View()).Cleanup(cfg)
    {
      CancelTimer();
      connected := false;
      if managed && cfg.name != "" {
        managed := false;
        registry := registry + [Remove];
      }
      open := false;
    }

    /** The manager's `close`. */
    method Close()
      requires Valid()
      modifies this
      ensures Valid() && View() == old(View()).Cleanup(cfg)
    {
      CleanupKeeps(cfg, View());
      Cleanup();
    }

    method WriteLastMessage(now: int)
      modifies this
      ensures View() == old(View()).AfterWriteLast(cfg, now)
    {
      if policy || !cfg.PrintsLast() {
        Cleanup();
        return;
      }
      writing := true;
      AsyncWrite(WriteClosing, LastOut, now);
    }

    method SetupPingOrInactiveTimeout(now: int)
      modifies this
      ensures View() == old(View()).AfterSetupIdle(cfg, now)
    {
      if expires <= now {
        expires := now + cfg.Idle();
      }
      if !pingDisabled {
        var pingTime := now + cfg.PingDelay();
        if pingTime < expires {
          Arm(Ping(pingTime));
          return;
        }
      }
      if expires - now >= Milliseconds(MINIMAL_INACTIVE_TIMEOUT) {
        Arm(Inactive(expires));
      } else {
        WriteLastMessage(now);
      }
    }

    method SetupInactiveTimeout(now: int)
      modifies this
      ensures View() == old(View()).AfterSetupInactive(cfg, now)
    {
      ghost var before := View();
      expires := now + cfg.Idle();
      assert View() == before.(expires := now + cfg.Idle());
      SetupPingOrInactiveTimeout(now);
    }

    method WriteNextMessage(now: int)
      modifies this
      ensures View() == old(View()).AfterWriteMessage(cfg, now)
    {
      ghost var all := View().AfterWriteMessage(cfg, now);
      while connected
        invariant View().AfterWriteMessage(cfg, now) == all
        decreases |messages|, connected
      {
        ghost var before := View();
        CancelTimer();
        if messages == [] {
          SetupInactiveTimeout(now);
          return;
        }
        if messages[0].Finish? {
          WriteLastMessage(now);
          return;
        }
        var printed := messages[0].message.printed;
        if printed.Throws? {
          Cleanup();
          return;
        }
        popped := popped + [messages[0]];
        messages := messages[1..];
        assert View() == before.CancelPop();
        if printed.Text? {
          WriteText(printed.text, now);
          return;
        }
        // nothing was printed: go on with the next
      }
    }

    method WriteText(text: string, now: int)
      modifies this
      ensures View() == old(View()).AfterPost(cfg, text, now)
    {
      writing := true;
      AsyncWrite(WriteMessage, TextOut(text), now);
    }

    method WritePingMessage(now: int)
      requires !pingDisabled
      modifies this
      ensures View() == old(View()).AfterWritePing(cfg, now)
    {
      assert !pingDisabled;
      if cfg.pingText != "" {
        writing := true;
        AsyncWrite(WritePing, PingOut, now);
      } else {
        pingDisabled := true;
        SetupPingOrInactiveTimeout(now);
      }
    }

    method WriteHttpError(now: int)
      modifies this
      ensures View() == old(View()).AfterWriteError(cfg, now)
    {
      if policy {
        Cleanup();
        return;
      }
      AsyncWrite(WriteClosing, ErrorOut, now);
    }

    method WritePolicyData(now: int)
      modifies this
      ensures View() == old(View()).AfterWritePolicy(cfg, now)
    {
      if cfg.policyData == "" {
        Cleanup();
        return;
      }
      writing := true;
      AsyncWrite(WriteClosing, PolicyOut, now);
    }

    method WriteStaticContent(now: int)
      modifies this
      ensures View() == old(View()).AfterWriteStatic(cfg, now)
    {
      if policy || !cfg.PrintsStatic() {
        Cleanup();
        return;
      }
      writing := true;
      AsyncWrite(WriteClosing, StaticOut, now);
    }

    method WriteResponseHeaders(now: int)
      modifies this
      ensures View() == old(View()).AfterWriteHeaders(cfg, now)
    {
      if policy || !cfg.PrintsHeaders() {
        Cleanup();
        return;
      }
      AsyncWrite(WriteHeaders, HeadersOut, now);
    }

    method BeginReadRequest(now: int)
      modifies this
      ensures View() == old(View()).AfterReadRequest(cfg, now)
    {
      StartRead(ReadRequest);
      Arm(Timeout(now + Milliseconds(cfg.readTimeout)));
    }

    method HandleHandshake(ok: bool, now: int)
      requires Valid() && ReadHandshake in pendingReads
      modifies this
      ensures Valid() && View() == old(View()).OnHandshake(cfg, ok, now)
    {
      OnHandshakeKeeps(cfg, View(), ok, now);
      pendingReads := Without(pendingReads, ReadHandshake);
      CancelTimer();
      if !ok {
        Cleanup();
        return;
      }
      BeginReadRequest(now);
    }

    method HandleReadRequest(ok: bool, outcome: RequestOutcome, now: int)
      requires Valid() && ReadRequest in pendingReads
      modifies this
      ensures Valid() && View() == old(View()).OnReadRequest(cfg, ok, outcome, now)
    {
      OnReadRequestKeeps(cfg, View(), ok, outcome, now);
      pendingReads := Without(pendingReads, ReadRequest);
      CancelTimer();
      assert View() == old(View()).Finished(ReadRequest);
      if !ok {
        Cleanup();
        return;
      }
      TakeRequest(outcome, now);
    }

    method TakeRequest(outcome: RequestOutcome, now: int)
      modifies this
      ensures View() == old(View()).AfterRequestRead(cfg, outcome, now)
    {
      match outcome
      case Malformed => Cleanup();
      case Rejected => WriteHttpError(now);
      case PolicyFile =>
        policy := true;
        WritePolicyData(now);
      case Dispatched => invoked := true;
    }

    method HandleResponse(response: ResponseOutcome, accepted: bool, now: int)
      requires Valid() && invoked
      modifies this
      ensures Valid() && View() == old(View()).TakeInvocation().AfterHandled(cfg, response, accepted, now)
    {
      OnHandledKeeps(cfg, View(), response, accepted, now);
      invoked := false;
      CancelTimer();
      match response
      case Throws => Cleanup();
      case ThrowsHttp => WriteHttpError(now);
      case Static => WriteStaticContent(now);
      case Subscribe => if cfg.name == "" { WriteHttpError(now); } else { BecomeSubscriber(accepted, now); }
    }

    method BecomeSubscriber(accepted: bool, now: int)
      modifies this
      ensures View() == old(View()).AfterSubscribe(cfg, accepted, now)
    {
      single := cfg.single;
      pingDisabled := cfg.PingDisabled();
      Register(accepted, now);
    }

    /** `accepted` is the answer of the manager's insert_connection. */
    method Register(accepted: bool, now: int)
      modifies this
      ensures View() == old(View()).AfterRegister(cfg, accepted, now)
    {
      if !accepted {
        Cleanup();
        return;
      }
      managed := true;
      registry := registry + [Insert];
      WriteResponseHeaders(now);
    }

    method HandleErrors(http: bool, now: int)
      requires Valid() && invoked
      modifies this
      ensures Valid() && View() == old(View()).OnHandledErrors(cfg, http, now)
    {
      OnHandledErrorsKeeps(cfg, View(), http, now);
      invoked := false;
      CancelTimer();
      if http {
        WriteHttpError(now);
      } else {
        Cleanup();
      }
    }

    method SendEntry(entry: Entry, now: int)
      requires Valid()
      modifies this
      ensures Valid() && View() == old(View()).OnSend(cfg, entry, now)
    {
      OnSendKeeps(cfg, View(), entry, now);
      messages := messages + [entry];
      sent := sent + [entry];
      if !writing && connected {
        WriteNextMessage(now);
      }
    }

    method HandleWriteHeaders(ok: bool, now: int)
      requires Valid() && WriteHeaders in pendingWrites
      modifies this
      ensures Valid() && View() == old(View()).OnWriteHeaders(cfg, ok, now)
    {
      OnWriteHeadersKeeps(cfg, View(), ok, now);
      pendingWrites := Without(pendingWrites, WriteHeaders);
      CancelTimer();
      ghost var done := View();
      assert done == old(View()).Done(WriteHeaders);
      if !ok {
        Cleanup();
        return;
      }
      if open {
        connected := true;
        StartRead(ReadSome);
        assert View() == done.(connected := true).StartRead(ReadSome);
        WriteNextMessage(now);
      }
    }

    method Settle(w: Write)
      modifies this`timer, this`abortedPings, this`pendingWrites, this`writing
      ensures View() == old(View()).Settle(w)
    {
      pendingWrites := Without(pendingWrites, w);
      CancelTimer();
      writing := false;
    }

    method HandleWriteMessage(ok: bool, now: int)
      requires Valid() && WriteMessage in pendingWrites
      modifies this
      ensures Valid() && View() == old(View()).OnWriteMessage(cfg, ok, now)
    {
      OnWriteMessageKeeps(cfg, View(), ok, now);
      Settle(WriteMessage);
      if !ok {
        Cleanup();
        return;
      }
      if single {
        WriteLastMessage(now);
      } else {
        WriteNextMessage(now);
      }
    }

    /** The source asserts here that pings are enabled; on reachable states they are. */
    method HandleWritePing(ok: bool, now: int)
      requires Valid() && WritePing in pendingWrites
      modifies this
      ensures Valid() && View() == old(View()).OnWritePing(cfg, ok, now)
    {
      OnWritePingKeeps(cfg, View(), ok, now);
      Settle(WritePing);
      if !ok {
        Cleanup();
        return;
      }
      assert !pingDisabled;
      if messages != [] {
        WriteNextMessage(now);
      } else {
        SetupPingOrInactiveTimeout(now);
      }
    }

    method HandleCleanup()
      requires Valid() && WriteClosing in pendingWrites
      modifies this
      ensures Valid() && View() == old(View()).Written(WriteClosing).Cleanup(cfg)
    {
      OnClosingKeeps(cfg, View());
      pendingWrites := Without(pendingWrites, WriteClosing);
      Cleanup();
    }

    method HandleReadSome(ok: bool, size: nat)
      requires Valid() && ReadSome in pendingReads
      modifies this
      ensures Valid() && View() == old(View()).OnReadSome(cfg, ok, size)
    {
      OnReadSomeKeeps(cfg, View(), ok, size);
      pendingReads := Without(pendingReads, ReadSome);
      CancelTimer();
      assert View() == old(View()).Finished(ReadSome);
      if ok && size > 0 {
        StartRead(ReadSome);
      } else {
        Cleanup();
      }
    }

    method HandleTimeout(now: int)
      requires Valid() && timer.Timeout?
      modifies this
      ensures Valid() && View() == old(View()).OnTimer(cfg, now)
    {
      OnTimerKeeps(cfg, View(), now);
      timer := Off;
      Cleanup();
    }

    /** The source asserts here, too, that pings are enabled. */
    method HandlePing(now: int)
      requires Valid() && timer.Ping?
      modifies this
      ensures Valid() && View() == old(View()).OnTimer(cfg, now)
    {
      OnTimerKeeps(cfg, View(), now);
      timer := Off;
      WritePingMessage(now);
    }

    method HandleInactiveTimeout(now: int)
      requires Valid() && timer.Inactive?
      modifies this
      ensures Valid() && View() == old(View()).OnTimer(cfg, now)
    {
      OnTimerKeeps(cfg, View(), now);
      timer := Off;
      WriteLastMessage(now);
    }

    /** handle_ping with an error code: only its assertion runs. */
    method HandlePingAborted()
      requires Valid() && abortedPings > 0
      modifies this`abortedPings
      ensures Valid() && View() == old(View()).Step(cfg, PingAborted)
    {
      PingAbortedKeeps(cfg, View());
      assert !pingDisabled;
      abortedPings := abortedPings - 1;
    }
  }
}
