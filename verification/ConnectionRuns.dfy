/** Whole runs of a connection: what is written, when it can stall, how long it stays idle. */
module ConnectionRuns {
  import opened Messages
  import opened ConnectionSpec
  import opened ConnectionInvariant
  import opened Sequences

  lemma {:induction false} RunKeeps(cfg: Config, s: Conn, events: seq<Event>)
    requires Inv(cfg, s) && Possible(cfg, s, events)
    ensures Inv(cfg, Run(cfg, s, events))
    decreases |events|
  {
    if events != [] {
      StepKeeps(cfg, s, events[0]);
      RunKeeps(cfg, s.Step(cfg, events[0]), events[1..]);
    }
  }

  /** The entries passed to `send` in a run, in order. */
  function Sends(events: seq<Event>): seq<Entry> {
    if events == [] then []
    else (if events[0].Send? then [events[0].entry] else []) + Sends(events[1..])
  }

  lemma {:induction false} RunSends(cfg: Config, s: Conn, events: seq<Event>)
    requires Possible(cfg, s, events)
    ensures Run(cfg, s, events).sent == s.sent + Sends(events)
    decreases |events|
  {
    if events != [] {
      RunSends(cfg, s.Step(cfg, events[0]), events[1..]);
      Assoc(s.sent, if events[0].Send? then [events[0].entry] else [], Sends(events[1..]));
    }
  }

  /** In every run at most one write is outstanding, and the texts written are those of the
      entries of some prefix of what was sent: in order, once each, skipping the empty ones,
      none from the null message on, at most one in single-message mode, none after the
      last-message write. A connection that is up and writes nothing has written them all. */
  lemma WriteDiscipline(cfg: Config, start: int, events: seq<Event>)
    requires Possible(cfg, Start(cfg, start), events)
    ensures var s := Run(cfg, Start(cfg, start), events);
      && |s.pendingWrites| <= 1
      && (exists k: nat :: k <= |Sends(events)|
            && TextsOf(s.output) == Texts(Sends(events)[..k]) && Printable(Sends(events)[..k]))
      && (cfg.single ==> |TextsOf(s.output)| <= 1)
      && LastIsLast(s.output)
      && (s.connected && !s.writing ==> TextsOf(s.output) == Texts(Sends(events)))
  {
    StartKeeps(cfg, start);
    RunKeeps(cfg, Start(cfg, start), events);
    RunSends(cfg, Start(cfg, start), events);
    var s := Run(cfg, Start(cfg, start), events);
    assert s.sent == Sends(events);
    assert s.sent[..|s.popped|] == s.popped;
    assert s.connected && !s.writing ==> s.popped + [] == s.popped;
  }

  /** The registry sees one insertion at most, and one removal at most, after it. */
  lemma RegisteredOnce(cfg: Config, start: int, events: seq<Event>)
    requires Possible(cfg, Start(cfg, start), events)
    ensures var s := Run(cfg, Start(cfg, start), events);
      && s.registry <= [Insert, Remove]
      && (s.managed <==> s.registry == [Insert])
  {
    StartKeeps(cfg, start);
    RunKeeps(cfg, Start(cfg, start), events);
  }

  /** The next event has its handler evaluate `assert(!disable_ping_)`. */
  predicate AssertsPing(s: Conn, e: Event) {
    (e.PingWritten? && e.ok) || (e.TimerFired? && s.timer.Ping?) || e.PingAborted?
  }

  /** In every run those assertions hold, even for ping waits that were cancelled. */
  lemma PingAssertionsHold(cfg: Config, start: int, events: seq<Event>, e: Event)
    requires Possible(cfg, Start(cfg, start), events)
    requires Run(cfg, Start(cfg, start), events).Enabled(e) && AssertsPing(Run(cfg, Start(cfg, start), events), e)
    ensures !Run(cfg, Start(cfg, start), events).pingDisabled
  {
    StartKeeps(cfg, start);
    RunKeeps(cfg, Start(cfg, start), events);
  }

  // ---- No stall ----

  /** A connected connection that writes nothing has nothing to write and a timer to wake it. */
  ghost predicate Live(s: Conn) {
    s.connected && !s.writing ==> s.messages == [] && s.timer.Idles()
  }

  /** A read that succeeds with data while the connection idles: its handler cancels the
      idle timer and arms no other. */
  predicate Silences(s: Conn, e: Event) {
    e.SomeRead? && e.ok && e.size > 0 && s.connected && !s.writing
  }

  lemma StepLives(cfg: Config, s: Conn, e: Event)
    requires Inv(cfg, s) && Live(s) && s.Enabled(e)
    ensures Live(s.Step(cfg, e)) <==> !Silences(s, e)
  {
  }

  ghost predicate AlwaysLive(cfg: Config, s: Conn, events: seq<Event>)
    requires Possible(cfg, s, events)
    decreases |events|
  {
    Live(s) && (events == [] || AlwaysLive(cfg, s.Step(cfg, events[0]), events[1..]))
  }

  predicate NeverSilenced(cfg: Config, s: Conn, events: seq<Event>)
    requires Possible(cfg, s, events)
    decreases |events|
  {
    events == [] || (!Silences(s, events[0]) && NeverSilenced(cfg, s.Step(cfg, events[0]), events[1..]))
  }

  lemma {:induction false} LivesUnlessSilenced(cfg: Config, s: Conn, events: seq<Event>)
    requires Inv(cfg, s) && Live(s) && Possible(cfg, s, events)
    ensures AlwaysLive(cfg, s, events) <==> NeverSilenced(cfg, s, events)
    decreases |events|
  {
    if events != [] {
      var t := s.Step(cfg, events[0]);
      StepKeeps(cfg, s, events[0]);
      StepLives(cfg, s, events[0]);
      if Live(t) { LivesUnlessSilenced(cfg, t, events[1..]); }
    }
  }

  /** A run from the start keeps every state live exactly when no read silences it. */
  lemma NoStall(cfg: Config, start: int, events: seq<Event>)
    requires Possible(cfg, Start(cfg, start), events)
    ensures AlwaysLive(cfg, Start(cfg, start), events) <==> NeverSilenced(cfg, Start(cfg, start), events)
  {
    StartKeeps(cfg, start);
    LivesUnlessSilenced(cfg, Start(cfg, start), events);
  }

  /** Reads go into a buffer without a bound. As long as none of them completes with data, every
      state of every run is live. */
  lemma LiveWhileNothingIsRead(cfg: Config, start: int, events: seq<Event>)
    requires Possible(cfg, Start(cfg, start), events)
    requires forall k :: 0 <= k < |events| && events[k].SomeRead? ==> !events[k].ok || events[k].size == 0
    ensures AlwaysLive(cfg, Start(cfg, start), events)
  {
    NothingSilences(cfg, Start(cfg, start), events);
    NoStall(cfg, start, events);
  }

  lemma {:induction false} NothingSilences(cfg: Config, s: Conn, events: seq<Event>)
    requires Possible(cfg, s, events)
    requires forall k :: 0 <= k < |events| && events[k].SomeRead? ==> !events[k].ok || events[k].size == 0
    ensures NeverSilenced(cfg, s, events)
    decreases |events|
  {
    if events != [] { NothingSilences(cfg, s.Step(cfg, events[0]), events[1..]); }
  }

  /** After such a read nothing is pending that would wake the connection. */
  lemma SilencedStalls(cfg: Config, s: Conn, e: Event)
    requires Inv(cfg, s) && s.Enabled(e) && Silences(s, e)
    ensures var t := s.Step(cfg, e);
      t.connected && t.timer.Off? && t.pendingWrites == [] && t.pendingReads == [ReadSome]
  {
  }

  ghost predicate Fresh(s: Conn) {
    s.open && s.messages == [] && !s.writing && s.pendingReads == []
  }

  lemma RequestExample(cfg: Config, now: int)
    requires !cfg.secure
    ensures var s := Start(cfg, now); s.Enabled(RequestRead(true, Dispatched, now))
    ensures var t := Start(cfg, now).Step(cfg, RequestRead(true, Dispatched, now));
      t.invoked && !t.policy && Fresh(t) && t.pendingWrites == []
  {
  }

  lemma SubscribeExample(cfg: Config, s: Conn, now: int)
    requires Fresh(s) && s.invoked && !s.policy && s.pendingWrites == [] && cfg.name != "" && cfg.transport.Chunked?
    ensures var t := s.Step(cfg, Handled(Subscribe, true, now)); Fresh(t) && t.pendingWrites == [WriteHeaders]
  {
  }

  lemma IdleExample(cfg: Config, s: Conn, now: int)
    requires Fresh(s) && s.pendingWrites == [WriteHeaders] && cfg.inactiveTimeout >= MINIMAL_INACTIVE_TIMEOUT
    ensures var t := s.Step(cfg, HeadersWritten(true, now)); t.connected && !t.writing && t.pendingReads == [ReadSome]
  {
    var u := s.Done(WriteHeaders).(connected := true).StartRead(ReadSome);
    IdlesOnNothing(cfg, u, now);
    assert s.OnWriteHeaders(cfg, true, now) == u.AfterWriteMessage(cfg, now);
  }

  lemma IdlesOnNothing(cfg: Config, u: Conn, now: int)
    requires u.connected && u.messages == [] && !u.writing && cfg.inactiveTimeout >= MINIMAL_INACTIVE_TIMEOUT
    ensures var t := u.AfterWriteMessage(cfg, now); t.connected && !t.writing && t.pendingReads == u.pendingReads
  {
    assert !u.Skips() && u.AfterFront(cfg, now) == u.Cancel().AfterSetupInactive(cfg, now);
    var v := u.Cancel().(expires := now + cfg.Idle());
    ArmsInTime(cfg, v, now);
    assert v.RenewDeadline(cfg, now) == v;
  }

  lemma ArmsInTime(cfg: Config, v: Conn, now: int)
    requires v.expires - now >= Milliseconds(MINIMAL_INACTIVE_TIMEOUT)
    ensures var t := v.ArmIdle(cfg, now);
      t.connected == v.connected && t.writing == v.writing && t.pendingReads == v.pendingReads
  {
    if !v.pingDisabled && now + cfg.PingDelay() < v.expires {
      assert v.ArmIdle(cfg, now) == v.Arm(Ping(now + cfg.PingDelay()));
    } else {
      assert v.ArmIdle(cfg, now) == v.Arm(Inactive(v.expires));
    }
  }

  /** ... and every plain HTTP subscription with a usable idle timeout gets there, if the socket
      layer completes such a read. */
  lemma StallExample(cfg: Config, now: int) returns (events: seq<Event>)
    requires !cfg.secure && cfg.name != "" && cfg.transport.Chunked? && cfg.inactiveTimeout >= MINIMAL_INACTIVE_TIMEOUT
    ensures Possible(cfg, Start(cfg, now), events) && !NeverSilenced(cfg, Start(cfg, now), events)
  {
    var read, handled, headers, some :=
      RequestRead(true, Dispatched, now), Handled(Subscribe, true, now), HeadersWritten(true, now), SomeRead(true, 1);
    RequestExample(cfg, now);
    var s1 := Start(cfg, now).Step(cfg, read);
    SubscribeExample(cfg, s1, now);
    var s2 := s1.Step(cfg, handled);
    IdleExample(cfg, s2, now);
    var last := [some] + [];
    RunOne(cfg, s2.Step(cfg, headers), some, []);
    RunOne(cfg, s2, headers, last);
    RunOne(cfg, s1, handled, [headers] + last);
    RunOne(cfg, Start(cfg, now), read, [handled] + ([headers] + last));
    events := [read] + ([handled] + ([headers] + last));
  }

  lemma RunOne(cfg: Config, s: Conn, e: Event, rest: seq<Event>)
    requires s.Enabled(e) && Possible(cfg, s.Step(cfg, e), rest)
    ensures Possible(cfg, s, [e] + rest)
    ensures NeverSilenced(cfg, s, [e] + rest) ==> !Silences(s, e) && NeverSilenced(cfg, s.Step(cfg, e), rest)
  {
    assert ([e] + rest)[1..] == rest;
  }

}
