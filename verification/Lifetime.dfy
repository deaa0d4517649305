/** When a connection ends and why, and what each handler writes: said by the events and by the
    first waiting entry of which anything comes, not by the handlers that call one another. */
module Lifetime {
  import opened Messages
  import opened ConnectionSpec
  import opened ConnectionInvariant
  import opened ConnectionRuns
  import opened Sequences

  /** Neither closed nor about to be. */
  predicate Going(s: Conn) {
    s.open && WriteClosing !in s.pendingWrites
  }

  // ---- What comes of the waiting entries ----

  /** Its text is empty: nothing comes of it. */
  predicate Mute(e: Entry) {
    e.Post? && e.message.printed.Nothing?
  }

  /** The first entry of which something comes, or the number of entries. */
  function First(entries: seq<Entry>): (k: nat)
    ensures k <= |entries| && (forall j :: 0 <= j < k ==> Mute(entries[j])) && (k < |entries| ==> !Mute(entries[k]))
  {
    if entries == [] || !Mute(entries[0]) then 0 else 1 + First(entries[1..])
  }

  /** Something that ends the connection comes first: the null message, or one that throws. */
  predicate Halts(entries: seq<Entry>) {
    var k := First(entries);
    k < |entries| && (entries[k].Finish? || entries[k].message.printed.Throws?)
  }

  /** Nothing is left to write. */
  predicate Exhausted(entries: seq<Entry>) {
    First(entries) == |entries|
  }

  /** Neither a ping nor a wait of the least length fits before the deadline. */
  predicate TooLate(cfg: Config, pingDisabled: bool, deadline: int, now: int) {
    && (pingDisabled || deadline <= now + cfg.PingDelay())
    && deadline - now < Milliseconds(MINIMAL_INACTIVE_TIMEOUT)
  }

  function Last(cfg: Config): seq<Output> {
    if cfg.PrintsLast() then [LastOut] else []
  }

  /** What writing on from `entries` puts out. */
  function FirstOut(cfg: Config, s: Conn, entries: seq<Entry>, now: int): seq<Output> {
    var k := First(entries);
    if k == |entries| then if TooLate(cfg, s.pingDisabled, now + cfg.Idle(), now) then Last(cfg) else []
    else if entries[k].Finish? then Last(cfg)
    else if entries[k].message.printed.Throws? then []
    else [TextOut(entries[k].message.printed.text)]
  }

  // ---- Causes ----

  /** A completion reports an error, or the client has gone. */
  predicate Failed(e: Event) {
    match e
    case HandshakeDone(ok, _) => !ok
    case RequestRead(ok, _, _) => !ok
    case HeadersWritten(ok, _) => !ok
    case MessageWritten(ok, _) => !ok
    case PingWritten(ok, _) => !ok
    case SomeRead(ok, size) => !ok || size == 0
    case _ => false
  }

  /** The request is answered otherwise than by a subscription, or the subscription is refused. */
  predicate Refused(cfg: Config, e: Event) {
    match e
    case RequestRead(_, outcome, _) => !outcome.Dispatched?
    case Handled(response, accepted, _) => !response.Subscribe? || cfg.name == "" || !accepted || !cfg.PrintsHeaders()
    case HandledErrors(_, _) => true
    case _ => false
  }

  /** The entries that writing goes on with after `e`, if it does. */
  function Resumed(s: Conn, e: Event): (r: seq<Entry>) {
    if e.Send? then s.messages + [e.entry] else s.messages
  }

  predicate Resumes(s: Conn, e: Event) {
    match e
    case Send(_, _) => s.connected && !s.writing
    case HeadersWritten(ok, _) => ok
    case MessageWritten(ok, _) => ok && !s.single
    case PingWritten(ok, _) => ok && s.messages != []
    case _ => false
  }

  /** The idle deadline is there: its timer fires, or it is too near to wait for. */
  predicate IdleOver(cfg: Config, s: Conn, e: Event) {
    || (e.TimerFired? && s.timer.Inactive?)
    || (Resumes(s, e) && Exhausted(Resumed(s, e)) && TooLate(cfg, s.pingDisabled, e.now + cfg.Idle(), e.now))
    || (e.PingWritten? && e.ok && s.messages == [] &&
        TooLate(cfg, s.pingDisabled, if s.expires <= e.now then e.now + cfg.Idle() else s.expires, e.now))
  }

  /** All that ends a connection. */
  predicate Cause(cfg: Config, s: Conn, e: Event) {
    || Failed(e)
    || Refused(cfg, e)
    || e.Close?
    || (e.TimerFired? && s.timer.Timeout?)
    || (e.MessageWritten? && s.single)
    || (Resumes(s, e) && Halts(Resumed(s, e)))
    || IdleOver(cfg, s, e)
  }

  /** What the handler of `e` writes. */
  function Wrote(cfg: Config, s: Conn, e: Event): seq<Output> {
    if Failed(e) then []
    else if Resumes(s, e) then FirstOut(cfg, s, Resumed(s, e), e.now)
    else if IdleOver(cfg, s, e) || (e.MessageWritten? && s.single) then Last(cfg)
    else
      match e
      case RequestRead(_, Rejected, _) => [ErrorOut]
      case RequestRead(_, PolicyFile, _) => if cfg.policyData == "" then [] else [PolicyOut]
      case Handled(ThrowsHttp, _, _) => [ErrorOut]
      case Handled(Static, _, _) => if cfg.PrintsStatic() then [StaticOut] else []
      case Handled(Subscribe, accepted, _) =>
        if cfg.name == "" then [ErrorOut] else if accepted && cfg.PrintsHeaders() then [HeadersOut] else []
      case HandledErrors(true, _) => [ErrorOut]
      case TimerFired(_) => if s.timer.Ping? then [PingOut] else []
      case _ => []
  }

  // ---- Stages ----

  datatype Stage = Handshaking | Requesting | Handling | Answering | Up

  ghost predicate At(s: Conn, stage: Stage) {
    match stage
    case Handshaking => s.pendingReads == [ReadHandshake]
    case Requesting => s.pendingReads == [ReadRequest]
    case Handling => s.invoked
    case Answering => s.pendingWrites == [WriteHeaders]
    case Up => s.connected && s.pendingReads == [ReadSome]
  }

  function Next(stage: Stage, e: Event): Stage {
    match e
    case HandshakeDone(_, _) => Requesting
    case RequestRead(_, _, _) => Handling
    case Handled(_, _, _) => Answering
    case HeadersWritten(_, _) => Up
    case _ => stage
  }

  /** From `s` a handler that was to write `out` and end the connection or not has led to `t`. */
  ghost predicate Leads(cfg: Config, s: Conn, t: Conn, ends: bool, out: seq<Output>, now: int) {
    && (Going(t) <==> !ends)
    && t.output == s.output + out
    && (out != [] ==> t.timer == Timeout(now + Milliseconds(cfg.writeTimeout)))
    && (s.managed && cfg.name != "" && !t.open ==> !t.managed)
    && (Going(t) ==> t.connected == s.connected && t.pendingReads == s.pendingReads && t.policy == s.policy)
  }

  /** Up, between two writes. */
  predicate Free(s: Conn) {
    s.open && s.connected && s.pendingWrites == [] && !s.policy
  }

  lemma LastLeads(cfg: Config, s: Conn, now: int)
    requires Free(s)
    ensures Leads(cfg, s, s.AfterWriteLast(cfg, now), true, Last(cfg), now)
  {
    if !cfg.PrintsLast() { assert s.output + [] == s.output; }
  }

  lemma ArmLeads(cfg: Config, s: Conn, now: int)
    requires Free(s)
    ensures var late := TooLate(cfg, s.pingDisabled, s.expires, now);
      Leads(cfg, s, s.ArmIdle(cfg, now), late, if late then Last(cfg) else [], now)
  {
    assert s.output + [] == s.output;
    if TooLate(cfg, s.pingDisabled, s.expires, now) {
      LastLeads(cfg, s, now);
    } else if !s.pingDisabled && now + cfg.PingDelay() < s.expires {
      assert s.ArmIdle(cfg, now) == s.Arm(Ping(now + cfg.PingDelay()));
    } else {
      assert s.ArmIdle(cfg, now) == s.Arm(Inactive(s.expires));
    }
  }

  /** The loop of write_message leads to what the first entry of which anything comes says. */
  lemma {:induction false} WriteLeads(cfg: Config, s: Conn, now: int)
    requires Free(s)
    ensures Leads(cfg, s, s.AfterWriteMessage(cfg, now),
                  Halts(s.messages) || (Exhausted(s.messages) && TooLate(cfg, s.pingDisabled, now + cfg.Idle(), now)),
                  FirstOut(cfg, s, s.messages, now), now)
    decreases |s.messages|
  {
    if s.Skips() {
      WriteLeads(cfg, s.CancelPop(), now);
      FirstSkips(s.messages);
    } else {
      FrontLeads(cfg, s, now);
    }
  }

  lemma FirstSkips(entries: seq<Entry>)
    requires entries != [] && Mute(entries[0])
    ensures First(entries) == 1 + First(entries[1..])
    ensures Halts(entries) == Halts(entries[1..]) && Exhausted(entries) == Exhausted(entries[1..])
  {
  }

  /** Timers, deadline and queue do not matter to what is led to. */
  lemma LeadsFrom(cfg: Config, s: Conn, u: Conn, t: Conn, ends: bool, out: seq<Output>, now: int)
    requires Leads(cfg, u, t, ends, out, now) && u.output == s.output
    requires u.connected == s.connected && u.pendingReads == s.pendingReads && u.policy == s.policy
    requires u.managed == s.managed
    ensures Leads(cfg, s, t, ends, out, now)
  {
  }

  lemma FrontLeads(cfg: Config, s: Conn, now: int)
    requires Free(s) && !s.Skips()
    ensures Leads(cfg, s, s.AfterFront(cfg, now),
                  Halts(s.messages) || (Exhausted(s.messages) && TooLate(cfg, s.pingDisabled, now + cfg.Idle(), now)),
                  FirstOut(cfg, s, s.messages, now), now)
  {
    if s.messages == [] {
      EmptyLeads(cfg, s, now);
    } else {
      EntryLeads(cfg, s, now);
    }
  }

  lemma EmptyLeads(cfg: Config, s: Conn, now: int)
    requires Free(s) && s.messages == []
    ensures var late := TooLate(cfg, s.pingDisabled, now + cfg.Idle(), now);
      Leads(cfg, s, s.AfterFront(cfg, now), late, if late then Last(cfg) else [], now)
  {
    var u := s.Cancel().(expires := now + cfg.Idle());
    var late := TooLate(cfg, s.pingDisabled, now + cfg.Idle(), now);
    ArmLeads(cfg, u, now);
    assert u.RenewDeadline(cfg, now) == u;
    assert s.AfterFront(cfg, now) == u.ArmIdle(cfg, now);
    LeadsFrom(cfg, s, u, u.ArmIdle(cfg, now), late, if late then Last(cfg) else [], now);
  }

  lemma EntryLeads(cfg: Config, s: Conn, now: int)
    requires Free(s) && s.messages != [] && !Mute(s.messages[0])
    ensures Leads(cfg, s, s.AfterFront(cfg, now), Halts(s.messages), FirstOut(cfg, s, s.messages, now), now)
  {
    var u := s.Cancel();
    if s.messages[0].Finish? {
      LastLeads(cfg, u, now);
      LeadsFrom(cfg, s, u, u.AfterWriteLast(cfg, now), true, Last(cfg), now);
    } else {
      match s.messages[0].message.printed
      case Throws =>
        CleanupLeads(cfg, u, now);
        LeadsFrom(cfg, s, u, u.Cleanup(cfg), true, [], now);
      case Text(text) =>
        PostLeads(cfg, u.Pop(), text, now);
        LeadsFrom(cfg, s, u.Pop(), u.Pop().AfterPost(cfg, text, now), false, [TextOut(text)], now);
    }
  }

  lemma CleanupLeads(cfg: Config, s: Conn, now: int)
    ensures Leads(cfg, s, s.Cleanup(cfg), true, [], now)
  {
    assert s.output + [] == s.output;
  }

  lemma PostLeads(cfg: Config, s: Conn, text: string, now: int)
    requires Free(s)
    ensures Leads(cfg, s, s.AfterPost(cfg, text, now), false, [TextOut(text)], now)
  {
  }

  // ---- Every handler ----

  function Time(e: Event): int {
    match e
    case Close => 0
    case ClosingWritten => 0
    case SomeRead(_, _) => 0
    case PingAborted => 0
    case _ => e.now
  }

  ghost predicate Staged(cfg: Config, s: Conn, stage: Stage) {
    Inv(cfg, s) && Going(s) && !s.policy && At(s, stage)
  }

  /** What the handler of `e` has done to a going connection. */
  ghost predicate Did(cfg: Config, s: Conn, e: Event, stage: Stage, t: Conn) {
    && (Going(t) <==> !Cause(cfg, s, e))
    && t.output == s.output + Wrote(cfg, s, e)
    && (Wrote(cfg, s, e) != [] ==> t.timer == Timeout(Time(e) + Milliseconds(cfg.writeTimeout)))
    && (e.HandshakeDone? && e.ok ==> t.timer == Timeout(Time(e) + Milliseconds(cfg.readTimeout)))
    && (!t.open ==> !t.managed)
    && (Going(t) ==> !t.policy && At(t, Next(stage, e)))
  }

  lemma HandshakeDid(cfg: Config, s: Conn, ok: bool, now: int, stage: Stage)
    requires Staged(cfg, s, stage) && s.Enabled(HandshakeDone(ok, now))
    ensures Did(cfg, s, HandshakeDone(ok, now), stage, s.OnHandshake(cfg, ok, now))
  {
    assert s.pendingReads == [ReadHandshake];
    assert s.output + [] == s.output;
  }

  lemma RequestReadDid(cfg: Config, s: Conn, ok: bool, outcome: RequestOutcome, now: int, stage: Stage)
    requires Staged(cfg, s, stage) && s.Enabled(RequestRead(ok, outcome, now))
    ensures Did(cfg, s, RequestRead(ok, outcome, now), stage, s.OnReadRequest(cfg, ok, outcome, now))
  {
    assert s.pendingReads == [ReadRequest];
    assert s.output + [] == s.output;
  }

  lemma HandledDid(cfg: Config, s: Conn, response: ResponseOutcome, accepted: bool, now: int, stage: Stage)
    requires Staged(cfg, s, stage) && s.Enabled(Handled(response, accepted, now))
    ensures Did(cfg, s, Handled(response, accepted, now), stage, s.TakeInvocation().AfterHandled(cfg, response, accepted, now))
  {
    assert s.output + [] == s.output;
    if response.Subscribe? && cfg.name != "" { SubscribeDid(cfg, s, accepted, now, stage); }
  }

  lemma SubscribeDid(cfg: Config, s: Conn, accepted: bool, now: int, stage: Stage)
    requires Staged(cfg, s, stage) && s.invoked && cfg.name != ""
    ensures Did(cfg, s, Handled(Subscribe, accepted, now), stage, s.TakeInvocation().AfterSubscribe(cfg, accepted, now))
  {
    assert s.output + [] == s.output;
  }

  lemma HandledErrorsDid(cfg: Config, s: Conn, http: bool, now: int, stage: Stage)
    requires Staged(cfg, s, stage) && s.Enabled(HandledErrors(http, now))
    ensures Did(cfg, s, HandledErrors(http, now), stage, s.OnHandledErrors(cfg, http, now))
  {
    assert s.output + [] == s.output;
  }

  lemma ResumedCause(cfg: Config, s: Conn, e: Event)
    requires Resumes(s, e)
    ensures Cause(cfg, s, e) ==
      (Halts(Resumed(s, e)) ||
       (Exhausted(Resumed(s, e)) && TooLate(cfg, s.pingDisabled, Time(e) + cfg.Idle(), Time(e))))
    ensures Wrote(cfg, s, e) == FirstOut(cfg, s, Resumed(s, e), Time(e))
  {
  }

  /** Writing goes on, from `u`. */
  lemma ResumesDid(cfg: Config, s: Conn, e: Event, stage: Stage, u: Conn)
    requires Resumes(s, e) && Free(u) && u.messages == Resumed(s, e) && u.pendingReads == [ReadSome]
    requires u.output == s.output && u.pingDisabled == s.pingDisabled && Next(stage, e) == Up
    requires u.managed && cfg.name != ""
    ensures Did(cfg, s, e, stage, u.AfterWriteMessage(cfg, Time(e)))
  {
    ResumedCause(cfg, s, e);
    WriteLeads(cfg, u, Time(e));
  }

  lemma SendDid(cfg: Config, s: Conn, entry: Entry, now: int, stage: Stage)
    requires Staged(cfg, s, stage)
    ensures Did(cfg, s, Send(entry, now), stage, s.OnSend(cfg, entry, now))
  {
    assert s.output + [] == s.output;
    if s.connected && !s.writing { ResumesDid(cfg, s, Send(entry, now), stage, s.Queue(entry)); }
  }

  lemma HeadersWrittenDid(cfg: Config, s: Conn, ok: bool, now: int, stage: Stage)
    requires Staged(cfg, s, stage) && s.Enabled(HeadersWritten(ok, now))
    ensures Did(cfg, s, HeadersWritten(ok, now), stage, s.OnWriteHeaders(cfg, ok, now))
  {
    assert s.output + [] == s.output;
    if ok {
      ResumesDid(cfg, s, HeadersWritten(ok, now), stage, s.Done(WriteHeaders).(connected := true).StartRead(ReadSome));
    }
  }

  lemma MessageWrittenDid(cfg: Config, s: Conn, ok: bool, now: int, stage: Stage)
    requires Staged(cfg, s, stage) && s.Enabled(MessageWritten(ok, now))
    ensures Did(cfg, s, MessageWritten(ok, now), stage, s.OnWriteMessage(cfg, ok, now))
  {
    assert s.output + [] == s.output;
    var u := s.Settle(WriteMessage);
    if !ok {
    } else if s.single {
      LastLeads(cfg, u, now);
    } else {
      ResumesDid(cfg, s, MessageWritten(ok, now), stage, u);
    }
  }

  lemma PingWrittenDid(cfg: Config, s: Conn, ok: bool, now: int, stage: Stage)
    requires Staged(cfg, s, stage) && s.Enabled(PingWritten(ok, now))
    ensures Did(cfg, s, PingWritten(ok, now), stage, s.OnWritePing(cfg, ok, now))
  {
    assert s.output + [] == s.output;
    var u := s.Settle(WritePing);
    if !ok {
    } else if s.messages != [] {
      ResumesDid(cfg, s, PingWritten(ok, now), stage, u);
    } else {
      ArmLeads(cfg, u.RenewDeadline(cfg, now), now);
    }
  }

  lemma SomeReadDid(cfg: Config, s: Conn, ok: bool, size: nat, stage: Stage)
    requires Staged(cfg, s, stage) && s.Enabled(SomeRead(ok, size))
    ensures Did(cfg, s, SomeRead(ok, size), stage, s.OnReadSome(cfg, ok, size))
  {
    assert s.pendingReads == [ReadSome];
    assert s.output + [] == s.output;
  }

  lemma TimerDid(cfg: Config, s: Conn, now: int, stage: Stage)
    requires Staged(cfg, s, stage) && s.Enabled(TimerFired(now))
    ensures Did(cfg, s, TimerFired(now), stage, s.OnTimer(cfg, now))
  {
    assert s.output + [] == s.output;
    if s.timer.Inactive? { LastLeads(cfg, s.(timer := Off), now); }
  }

  /** Every handler, on a connection that is going: it ends exactly for a cause, writes exactly
      that, and otherwise goes on to the next stage. */
  lemma StepDid(cfg: Config, s: Conn, e: Event, stage: Stage)
    requires Staged(cfg, s, stage) && s.Enabled(e)
    ensures Did(cfg, s, e, stage, s.Step(cfg, e))
  {
    match e
    case HandshakeDone(ok, now) => HandshakeDid(cfg, s, ok, now, stage);
    case RequestRead(ok, outcome, now) => RequestReadDid(cfg, s, ok, outcome, now, stage);
    case Handled(response, accepted, now) => HandledDid(cfg, s, response, accepted, now, stage);
    case HandledErrors(http, now) => HandledErrorsDid(cfg, s, http, now, stage);
    case Send(entry, now) => SendDid(cfg, s, entry, now, stage);
    case HeadersWritten(ok, now) => HeadersWrittenDid(cfg, s, ok, now, stage);
    case MessageWritten(ok, now) => MessageWrittenDid(cfg, s, ok, now, stage);
    case PingWritten(ok, now) => PingWrittenDid(cfg, s, ok, now, stage);
    case SomeRead(ok, size) => SomeReadDid(cfg, s, ok, size, stage);
    case TimerFired(now) => TimerDid(cfg, s, now, stage);
    case Close => CleanupLeads(cfg, s, 0);
    case PingAborted => assert s.output + [] == s.output;
    case ClosingWritten =>
  }

  // ---- Once it has ended ----

  lemma GoneMessage(cfg: Config, s: Conn, ok: bool, now: int)
    requires Inv(cfg, s) && !Going(s) && s.Enabled(MessageWritten(ok, now))
    ensures !Going(s.OnWriteMessage(cfg, ok, now))
  {
    assert !s.open && !s.connected;
    assert s.Settle(WriteMessage).AfterWriteMessage(cfg, now) == s.Settle(WriteMessage);
  }

  lemma GonePing(cfg: Config, s: Conn, ok: bool, now: int)
    requires Inv(cfg, s) && !Going(s) && s.Enabled(PingWritten(ok, now))
    ensures !Going(s.OnWritePing(cfg, ok, now))
  {
    var u := s.Settle(WritePing);
    assert !s.open && !s.connected;
    assert u.AfterWriteMessage(cfg, now) == u;
    ClosedIdle(cfg, u, now);
  }

  lemma ClosedIdle(cfg: Config, u: Conn, now: int)
    requires !u.open
    ensures !u.AfterSetupIdle(cfg, now).open
  {
    ClosedArm(cfg, u.RenewDeadline(cfg, now), now);
  }

  lemma ClosedLast(cfg: Config, u: Conn, now: int)
    requires !u.open
    ensures !u.AfterWriteLast(cfg, now).open
  {
    if u.policy || !cfg.PrintsLast() {
      assert u.AfterWriteLast(cfg, now) == u.Cleanup(cfg);
    } else {
      assert u.AfterWriteLast(cfg, now) == u.(writing := true).StartWrite(cfg, WriteClosing, LastOut, now);
    }
  }

  lemma ClosedArm(cfg: Config, u: Conn, now: int)
    requires !u.open
    ensures !u.ArmIdle(cfg, now).open
  {
    if !u.pingDisabled && now + cfg.PingDelay() < u.expires {
      assert u.ArmIdle(cfg, now) == u.Arm(Ping(now + cfg.PingDelay()));
    } else if u.expires - now >= Milliseconds(MINIMAL_INACTIVE_TIMEOUT) {
      assert u.ArmIdle(cfg, now) == u.Arm(Inactive(u.expires));
    } else {
      assert u.ArmIdle(cfg, now) == u.AfterWriteLast(cfg, now);
      ClosedLast(cfg, u, now);
    }
  }

  lemma GoneHandled(cfg: Config, s: Conn, response: ResponseOutcome, accepted: bool, now: int)
    requires Inv(cfg, s) && !Going(s) && s.invoked
    ensures !Going(s.TakeInvocation().AfterHandled(cfg, response, accepted, now))
  {
    assert !s.open;
  }

  lemma GoneRequest(cfg: Config, s: Conn, ok: bool, outcome: RequestOutcome, now: int)
    requires Inv(cfg, s) && !Going(s) && s.Enabled(RequestRead(ok, outcome, now))
    ensures !Going(s.OnReadRequest(cfg, ok, outcome, now))
  {
    assert !s.open;
  }

  lemma GoneTimer(cfg: Config, s: Conn, now: int)
    requires Inv(cfg, s) && !Going(s) && s.Enabled(TimerFired(now))
    ensures !Going(s.OnTimer(cfg, now))
  {
    if s.timer.Ping? { ClosedIdle(cfg, s.(timer := Off, pingDisabled := true), now); }
  }

  lemma GoneSend(cfg: Config, s: Conn, entry: Entry, now: int)
    requires Inv(cfg, s) && !Going(s)
    ensures !Going(s.OnSend(cfg, entry, now))
  {
    assert s.writing || !s.connected;
  }

  /** A connection that has ended stays so. */
  lemma StepGone(cfg: Config, s: Conn, e: Event)
    requires Inv(cfg, s) && !Going(s) && s.Enabled(e)
    ensures !Going(s.Step(cfg, e))
  {
    match e
    case RequestRead(ok, outcome, now) => GoneRequest(cfg, s, ok, outcome, now);
    case Handled(response, accepted, now) => GoneHandled(cfg, s, response, accepted, now);
    case Send(entry, now) => GoneSend(cfg, s, entry, now);
    case MessageWritten(ok, now) => GoneMessage(cfg, s, ok, now);
    case PingWritten(ok, now) => GonePing(cfg, s, ok, now);
    case TimerFired(now) => GoneTimer(cfg, s, now);
    case _ =>
  }

  lemma CleanupLeaves(cfg: Config, s: Conn)
    requires s.managed ==> cfg.name != ""
    ensures !s.Cleanup(cfg).open && !s.Cleanup(cfg).managed
  {
  }

  /** As open and as registered as before, or closed and deregistered. */
  predicate Leaves(s: Conn, t: Conn) {
    if t.open then t.managed == s.managed else !t.managed
  }

  lemma ReadLeaves(cfg: Config, s: Conn, ok: bool, size: nat)
    requires s.managed ==> cfg.name != ""
    ensures s.open ==> Leaves(s, s.OnReadSome(cfg, ok, size))
  {
    CleanupLeaves(cfg, s.Finished(ReadSome));
  }

  lemma TimeoutLeaves(cfg: Config, s: Conn, now: int)
    requires (s.managed ==> cfg.name != "") && s.timer.Timeout?
    ensures Leaves(s, s.OnTimer(cfg, now))
  {
    CleanupLeaves(cfg, s.(timer := Off));
  }

  /** While the closing write is on its way, a handler leaves the connection as open and as
      registered as it is, or closes it and has it leave the registry. */
  lemma StepLeaves(cfg: Config, s: Conn, e: Event)
    requires Inv(cfg, s) && s.open && WriteClosing in s.pendingWrites && s.Enabled(e)
    ensures Leaves(s, s.Step(cfg, e))
  {
    assert s.pendingWrites == [WriteClosing];
    match e
    case Send(entry, now) => assert s.OnSend(cfg, entry, now) == s.Queue(entry);
    case Close => CleanupLeaves(cfg, s);
    case ClosingWritten => CleanupLeaves(cfg, s.Written(WriteClosing));
    case SomeRead(ok, size) => ReadLeaves(cfg, s, ok, size);
    case TimerFired(now) => TimeoutLeaves(cfg, s, now);
    case PingAborted =>
  }

  // ---- Whole runs ----

  /** Nothing in the run ends the connection. */
  predicate Uninterrupted(cfg: Config, s: Conn, events: seq<Event>)
    requires Possible(cfg, s, events)
    decreases |events|
  {
    events == [] || (!Cause(cfg, s, events[0]) && Uninterrupted(cfg, s.Step(cfg, events[0]), events[1..]))
  }

  function StageOf(stage: Stage, events: seq<Event>): Stage
    decreases |events|
  {
    if events == [] then stage else StageOf(Next(stage, events[0]), events[1..])
  }

  lemma {:induction false} RunGone(cfg: Config, s: Conn, events: seq<Event>)
    requires Inv(cfg, s) && !Going(s) && Possible(cfg, s, events)
    ensures !Going(Run(cfg, s, events))
    decreases |events|
  {
    if events != [] {
      StepGone(cfg, s, events[0]);
      StepKeeps(cfg, s, events[0]);
      RunGone(cfg, s.Step(cfg, events[0]), events[1..]);
    }
  }

  lemma StepStages(cfg: Config, s: Conn, e: Event, stage: Stage)
    requires Staged(cfg, s, stage) && s.Enabled(e)
    ensures var t := s.Step(cfg, e);
      && Inv(cfg, t) && (Going(t) <==> !Cause(cfg, s, e)) && (Going(t) ==> Staged(cfg, t, Next(stage, e)))
    ensures stage == Up ==> Next(stage, e) == Up
  {
    StepDid(cfg, s, e, stage);
    StepKeeps(cfg, s, e);
    if stage == Up { StaysUp(cfg, s, e); }
  }

  lemma {:induction false} RunGoes(cfg: Config, s: Conn, events: seq<Event>, stage: Stage)
    requires Staged(cfg, s, stage) && Possible(cfg, s, events)
    ensures Going(Run(cfg, s, events)) <==> Uninterrupted(cfg, s, events)
    ensures Uninterrupted(cfg, s, events) ==> Staged(cfg, Run(cfg, s, events), StageOf(stage, events))
    decreases |events|
  {
    if events != [] {
      var t := s.Step(cfg, events[0]);
      StepStages(cfg, s, events[0], stage);
      if Going(t) { RunGoes(cfg, t, events[1..], Next(stage, events[0])); } else { RunGone(cfg, t, events[1..]); }
    }
  }

  function FirstStage(cfg: Config): Stage {
    if cfg.secure then Handshaking else Requesting
  }

  lemma StartStaged(cfg: Config, start: int)
    ensures Staged(cfg, Start(cfg, start), FirstStage(cfg))
    ensures Start(cfg, start).timer == Timeout(start + Milliseconds(cfg.readTimeout))
  {
    StartKeeps(cfg, start);
  }

  /** In every run: the connection ends exactly when some event is a cause for it, and until then
      it is at the stage that the events say. */
  lemma EndsForCause(cfg: Config, start: int, events: seq<Event>)
    requires Possible(cfg, Start(cfg, start), events)
    ensures var s := Run(cfg, Start(cfg, start), events); var on := Uninterrupted(cfg, Start(cfg, start), events);
      && (on <==> s.open && WriteClosing !in s.pendingWrites)
      && (on ==> At(s, StageOf(FirstStage(cfg), events)))
  {
    StartStaged(cfg, start);
    RunGoes(cfg, Start(cfg, start), events, FirstStage(cfg));
  }

  lemma StaysUp(cfg: Config, s: Conn, e: Event)
    requires Staged(cfg, s, Up) && s.Enabled(e)
    ensures Next(Up, e) == Up
  {
  }

  lemma {:induction false} RunUp(cfg: Config, s: Conn, events: seq<Event>, stage: Stage)
    requires Staged(cfg, s, stage) && Possible(cfg, s, events) && Uninterrupted(cfg, s, events)
    requires stage == Up || exists k :: 0 <= k < |events| && events[k].HeadersWritten?
    ensures StageOf(stage, events) == Up
    decreases |events|
  {
    if events != [] {
      var next := Next(stage, events[0]);
      StepStages(cfg, s, events[0], stage);
      if next != Up { StillToCome(stage, events); }
      RunUp(cfg, s.Step(cfg, events[0]), events[1..], next);
    }
  }

  lemma StillToCome(stage: Stage, events: seq<Event>)
    requires events != [] && Next(stage, events[0]) != Up
    requires stage == Up || exists k :: 0 <= k < |events| && events[k].HeadersWritten?
    ensures stage != Up ==> exists k :: 0 <= k < |events[1..]| && events[1..][k].HeadersWritten?
  {
    if stage != Up {
      var k :| 0 <= k < |events| && events[k].HeadersWritten?;
      assert events[1..][k - 1].HeadersWritten?;
    }
  }

  /** As long as nothing ends it, a connection whose headers are written is up; and whenever no
      write is outstanding, everything that was sent to it has been written. */
  lemma UpWritesAll(cfg: Config, start: int, events: seq<Event>)
    requires Possible(cfg, Start(cfg, start), events) && Uninterrupted(cfg, Start(cfg, start), events)
    requires exists k :: 0 <= k < |events| && events[k].HeadersWritten?
    ensures var s := Run(cfg, Start(cfg, start), events);
      && s.connected && s.open && LastOut !in s.output
      && (s.pendingWrites == [] ==>
            !s.writing && Printable(Sends(events)) && TextsOf(s.output) == Texts(Sends(events)))
  {
    var s := Run(cfg, Start(cfg, start), events);
    StartStaged(cfg, start);
    RunGoes(cfg, Start(cfg, start), events, FirstStage(cfg));
    RunUp(cfg, Start(cfg, start), events, FirstStage(cfg));
    RunSends(cfg, Start(cfg, start), events);
    AllTaken(cfg, s);
    assert s.sent == Sends(events);
  }

  lemma AllTaken(cfg: Config, s: Conn)
    requires Staged(cfg, s, Up)
    ensures LastOut !in s.output
    ensures s.pendingWrites == [] ==> !s.writing && Printable(s.sent) && TextsOf(s.output) == Texts(s.sent)
  {
    if s.pendingWrites == [] { assert s.popped + [] == s.popped; }
  }
}
