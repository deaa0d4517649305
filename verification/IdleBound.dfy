/** How long a connection that gets no messages stays open. Timers are assumed to fire on
    time and every ping write to complete before the idle deadline. */
module IdleBound {
  import opened ConnectionSpec
  import opened ConnectionInvariant

  /** Connected, nothing to write, nothing being written. */
  ghost predicate Resting(cfg: Config, s: Conn) {
    Inv(cfg, s) && s.connected && !s.writing
  }

  /** Resting since `since`, with the next ping due before the deadline. */
  ghost predicate AwaitsPing(cfg: Config, s: Conn, since: int) {
    Resting(cfg, s) && s.timer == Ping(since + cfg.PingDelay()) && since + cfg.PingDelay() < s.expires
  }

  ghost predicate AwaitsDeadline(cfg: Config, s: Conn, since: int) {
    Resting(cfg, s) && s.timer == Inactive(s.expires) && s.expires - since >= Milliseconds(MINIMAL_INACTIVE_TIMEOUT)
  }

  /** The last message is started at `now`: either its write is outstanding, or the transport
      prints none and the connection is down. */
  ghost predicate LastAt(cfg: Config, s: Conn, now: int) {
    if s.policy || !cfg.PrintsLast() then !s.connected && s.timer.Off?
    else s.output != [] && s.output[|s.output| - 1] == LastOut && s.pendingWrites == [WriteClosing]
         && s.timer == Timeout(now + Milliseconds(cfg.writeTimeout))
  }

  /** The ping timer fires when due and the ping is written at `at`. */
  function PingStarted(cfg: Config, s: Conn): Conn
    requires s.timer.Ping?
  {
    s.Step(cfg, TimerFired(s.timer.at))
  }

  function Pinged(cfg: Config, s: Conn, at: int): Conn
    requires s.timer.Ping? && PingStarted(cfg, s).Enabled(PingWritten(true, at))
  {
    PingStarted(cfg, s).Step(cfg, PingWritten(true, at))
  }

  /** What the arming of the idle timer at `now` leads to. */
  ghost predicate Rearmed(cfg: Config, before: Conn, s: Conn, now: int) {
    if now + cfg.PingDelay() < before.expires then AwaitsPing(cfg, s, now)
    else if before.expires - now >= Milliseconds(MINIMAL_INACTIVE_TIMEOUT) then AwaitsDeadline(cfg, s, now)
    else LastAt(cfg, s, now)
  }

  lemma PingStart(cfg: Config, s: Conn)
    requires Resting(cfg, s) && s.timer.Ping?
    ensures var t := PingStarted(cfg, s);
      && Inv(cfg, t) && t.connected && t.pendingWrites == [WritePing] && t.messages == []
      && t.expires == s.expires
      && !t.pingDisabled
  {
    StepKeeps(cfg, s, TimerFired(s.timer.at));
  }

  lemma PingEnd(cfg: Config, t: Conn, at: int)
    requires Inv(cfg, t) && t.connected && t.pendingWrites == [WritePing] && t.messages == [] && at < t.expires
    ensures var r := t.Step(cfg, PingWritten(true, at)); r.expires == t.expires && Rearmed(cfg, t, r, at)
  {
    StepKeeps(cfg, t, PingWritten(true, at));
    var u := t.Settle(WritePing);
    assert t.Step(cfg, PingWritten(true, at)) == u.ArmIdle(cfg, at);
  }

  /** Pings written at `times`, none late. */
  ghost predicate Quiet(cfg: Config, s: Conn, times: seq<int>)
    decreases |times|
  {
    times == [] ||
    (s.timer.Ping? && s.timer.at <= times[0] < s.expires
     && PingStarted(cfg, s).Enabled(PingWritten(true, times[0]))
     && Quiet(cfg, Pinged(cfg, s, times[0]), times[1..]))
  }

  function After(cfg: Config, s: Conn, times: seq<int>): Conn
    requires Quiet(cfg, s, times)
    decreases |times|
  {
    if times == [] then s else After(cfg, Pinged(cfg, s, times[0]), times[1..])
  }

  /** Where a quiet stretch with that deadline has got to, when its last step was at `last`. */
  ghost predicate Stands(cfg: Config, r: Conn, deadline: int, last: int) {
    && r.expires == deadline
    && (|| AwaitsPing(cfg, r, last)
        || AwaitsDeadline(cfg, r, last)
        || (last <= deadline < last + Milliseconds(MINIMAL_INACTIVE_TIMEOUT) && LastAt(cfg, r, last)))
  }

  lemma PingRound(cfg: Config, s: Conn, since: int, times: seq<int>)
    requires AwaitsPing(cfg, s, since) && Quiet(cfg, s, times) && times != []
    ensures since + cfg.PingDelay() <= times[0] < s.expires
    ensures var r := Pinged(cfg, s, times[0]);
      && Stands(cfg, r, s.expires, times[0])
      && (AwaitsPing(cfg, r, times[0]) || times[1..] == [])
  {
    PingStart(cfg, s);
    PingEnd(cfg, PingStarted(cfg, s), times[0]);
  }

  /** Times after `since` and before `deadline`, each at least `p` after the one before. */
  ghost predicate Spaced(since: int, times: seq<int>, p: int, deadline: int)
    decreases |times|
  {
    times == [] || (since + p <= times[0] < deadline && Spaced(times[0], times[1..], p, deadline))
  }

  lemma {:induction false} SpacedFit(since: int, times: seq<int>, p: int, deadline: int)
    requires Spaced(since, times, p, deadline) && since < deadline
    ensures |times| * p < deadline - since
    decreases |times|
  {
    if times != [] {
      SpacedFit(times[0], times[1..], p, deadline);
      assert |times| * p == |times[1..]| * p + p;
    }
  }

  lemma {:induction false} QuietSpaced(cfg: Config, s: Conn, since: int, times: seq<int>)
    requires AwaitsPing(cfg, s, since) && Quiet(cfg, s, times)
    ensures Spaced(since, times, cfg.PingDelay(), s.expires)
    decreases |times|
  {
    if times != [] {
      PingRound(cfg, s, since, times);
      if times[1..] != [] { QuietSpaced(cfg, Pinged(cfg, s, times[0]), times[0], times[1..]); }
    }
  }

  /** Each ping takes at least one interval (of 100 ms or more) off the time left, so fewer
      pings than intervals fit. */
  lemma PingsFit(cfg: Config, s: Conn, since: int, times: seq<int>)
    requires AwaitsPing(cfg, s, since) && Quiet(cfg, s, times)
    ensures Spaced(since, times, cfg.PingDelay(), s.expires)
    ensures |times| * cfg.PingDelay() < s.expires - since
    ensures cfg.PingDelay() >= Milliseconds(MINIMAL_PING_INTERVAL)
  {
    QuietSpaced(cfg, s, since, times);
    SpacedFit(since, times, cfg.PingDelay(), s.expires);
  }

  /** When a quiet stretch last did something. */
  function LastOf(since: int, times: seq<int>): int {
    if times == [] then since else times[|times| - 1]
  }

  /** While pings are in time the deadline does not move: after any number of them the next one
      is awaited, or the deadline is, or the last message was started less than a hundred
      milliseconds before it. */
  lemma {:induction false} QuietEnd(cfg: Config, s: Conn, since: int, times: seq<int>)
    requires Stands(cfg, s, s.expires, since) && Quiet(cfg, s, times)
    ensures Stands(cfg, After(cfg, s, times), s.expires, LastOf(since, times))
    decreases |times|
  {
    if times != [] {
      StandsForPing(cfg, s, since);
      var r := QuietTurn(cfg, s, since, times);
      QuietEnd(cfg, r, times[0], times[1..]);
      LastOfTail(since, times);
    }
  }

  lemma LastOfTail(since: int, times: seq<int>)
    requires times != []
    ensures LastOf(times[0], times[1..]) == LastOf(since, times)
  {
  }

  lemma StandsForPing(cfg: Config, s: Conn, since: int)
    requires Stands(cfg, s, s.expires, since) && s.timer.Ping?
    ensures AwaitsPing(cfg, s, since)
  {
  }

  lemma QuietTurn(cfg: Config, s: Conn, since: int, times: seq<int>) returns (r: Conn)
    requires AwaitsPing(cfg, s, since) && Quiet(cfg, s, times) && times != []
    ensures Quiet(cfg, r, times[1..]) && After(cfg, s, times) == After(cfg, r, times[1..])
    ensures r.expires == s.expires && Stands(cfg, r, r.expires, times[0])
  {
    r := Pinged(cfg, s, times[0]);
    PingRound(cfg, s, since, times);
  }

  /** When the wait for the deadline ends on time, the last message is started right then. */
  lemma DeadlineEnd(cfg: Config, s: Conn, since: int)
    requires AwaitsDeadline(cfg, s, since)
    ensures LastAt(cfg, s.Step(cfg, TimerFired(s.expires)), s.expires)
  {
    assert s.pendingWrites == [];
    InactiveFires(cfg, s, s.expires);
    LastStarts(cfg, s.(timer := Off), s.expires);
  }

  lemma InactiveFires(cfg: Config, s: Conn, at: int)
    requires s.timer == Inactive(at)
    ensures s.Step(cfg, TimerFired(at)) == s.(timer := Off).AfterWriteLast(cfg, at)
  {
    assert s.Step(cfg, TimerFired(at)) == s.OnTimer(cfg, at);
  }

  lemma LastStarts(cfg: Config, s: Conn, at: int)
    requires s.pendingWrites == []
    ensures LastAt(cfg, s.AfterWriteLast(cfg, at), at)
  {
    var u := s.(writing := true);
    var r := u.StartWrite(cfg, WriteClosing, LastOut, at);
    if s.policy || !cfg.PrintsLast() {
      assert s.AfterWriteLast(cfg, at) == s.Cleanup(cfg);
    } else {
      assert s.AfterWriteLast(cfg, at) == r;
      Started(cfg, u, WriteClosing, LastOut, at);
    }
  }

  lemma Started(cfg: Config, s: Conn, w: Write, out: Output, now: int)
    ensures var r := s.StartWrite(cfg, w, out, now);
      && r.output == s.output + [out] && r.pendingWrites == s.pendingWrites + [w]
      && r.timer == Timeout(now + Milliseconds(cfg.writeTimeout))
      && r.policy == s.policy
  {
  }

  /** A connection that runs out of messages at `now` is given the whole idle timeout: it waits
      for its first ping, or for the deadline, or, with a timeout too short to wait for, starts
      its last message at once. */
  lemma IdleStart(cfg: Config, s: Conn, now: int)
    requires MayPost(cfg, s) && s.connected && s.messages == []
    ensures Stands(cfg, s.AfterWriteMessage(cfg, now), now + cfg.Idle(), now)
    ensures LastAt(cfg, s.AfterWriteMessage(cfg, now), now) ==> cfg.inactiveTimeout < MINIMAL_INACTIVE_TIMEOUT
  {
    ArmsWithDeadline(cfg, s, now);
    ArmedStands(cfg, s.Cancel().(expires := now + cfg.Idle()), now);
  }

  lemma ArmsWithDeadline(cfg: Config, s: Conn, now: int)
    requires s.connected && s.messages == []
    ensures s.AfterWriteMessage(cfg, now) == s.Cancel().(expires := now + cfg.Idle()).ArmIdle(cfg, now)
  {
    var u := s.Cancel().(expires := now + cfg.Idle());
    assert s.AfterWriteMessage(cfg, now) == s.Cancel().AfterSetupInactive(cfg, now);
    assert u.RenewDeadline(cfg, now) == u;
  }

  lemma ArmedStands(cfg: Config, u: Conn, now: int)
    requires MayPost(cfg, u) && u.connected && u.messages == [] && u.expires == now + cfg.Idle()
    ensures Stands(cfg, u.ArmIdle(cfg, now), u.expires, now)
    ensures LastAt(cfg, u.ArmIdle(cfg, now), now) ==> cfg.inactiveTimeout < MINIMAL_INACTIVE_TIMEOUT
  {
    ArmIdleKeeps(cfg, u, now);
    if !u.pingDisabled && now + cfg.PingDelay() < u.expires {
      assert AwaitsPing(cfg, u.ArmIdle(cfg, now), now);
    } else if u.expires - now >= Milliseconds(MINIMAL_INACTIVE_TIMEOUT) {
      assert AwaitsDeadline(cfg, u.ArmIdle(cfg, now), now);
    } else {
      LastStarts(cfg, u, now);
    }
  }

  /** The last message is started at `at`: it has been, or the timer will see to it. */
  ghost predicate Ends(cfg: Config, s: Conn, at: int) {
    || LastAt(cfg, s, at)
    || (s.timer == Inactive(at) && LastAt(cfg, s.Step(cfg, TimerFired(at)), at))
  }

  /** The whole idle stretch: from running out of messages at `now` through any pings, none of
      them late. The deadline stays where it was set, and either the next ping is awaited, or the
      last message is started at some time not after the deadline and less than a hundred
      milliseconds before it. */
  lemma IdleStretch(cfg: Config, s: Conn, now: int, times: seq<int>)
    requires MayPost(cfg, s) && s.connected && s.messages == []
    requires Quiet(cfg, s.AfterWriteMessage(cfg, now), times)
    ensures var e := After(cfg, s.AfterWriteMessage(cfg, now), times); var deadline := now + cfg.Idle();
      && e.expires == deadline
      && (AwaitsPing(cfg, e, LastOf(now, times))
          || exists at :: deadline - Milliseconds(MINIMAL_INACTIVE_TIMEOUT) < at <= deadline && Ends(cfg, e, at))
  {
    IdleStart(cfg, s, now);
    QuietEnd(cfg, s.AfterWriteMessage(cfg, now), now, times);
    var e := After(cfg, s.AfterWriteMessage(cfg, now), times);
    if !AwaitsPing(cfg, e, LastOf(now, times)) {
      StandsEnds(cfg, e, now + cfg.Idle(), LastOf(now, times));
    }
  }

  lemma StandsEnds(cfg: Config, e: Conn, deadline: int, last: int)
    requires Stands(cfg, e, deadline, last) && !AwaitsPing(cfg, e, last)
    ensures exists at :: deadline - Milliseconds(MINIMAL_INACTIVE_TIMEOUT) < at <= deadline && Ends(cfg, e, at)
  {
    if AwaitsDeadline(cfg, e, last) {
      DeadlineEnd(cfg, e, last);
      assert Ends(cfg, e, deadline);
    } else {
      assert Ends(cfg, e, last);
    }
  }

  /** Fewer pings are written in it than ping intervals fit into the idle timeout. */
  lemma PingsPerTimeout(cfg: Config, s: Conn, now: int, times: seq<int>)
    requires MayPost(cfg, s) && s.connected && s.messages == []
    requires Quiet(cfg, s.AfterWriteMessage(cfg, now), times)
    ensures times != [] ==> |times| * cfg.pingInterval < cfg.inactiveTimeout
  {
    if times != [] {
      IdleStart(cfg, s, now);
      PingsFit(cfg, s.AfterWriteMessage(cfg, now), now, times);
      InMilliseconds(|times|, cfg.pingInterval, cfg.inactiveTimeout);
    }
  }

  lemma InMilliseconds(n: nat, interval: nat, timeout: nat)
    requires n * Milliseconds(interval) < Milliseconds(timeout)
    ensures n * interval < timeout
  {
    assert n * (interval * 1000) == (n * interval) * 1000;
  }

  /** A ping write that completes with nothing to post moves the deadline exactly when it is late. */
  lemma LatePingRenews(cfg: Config, t: Conn, at: int)
    requires Inv(cfg, t) && t.Enabled(PingWritten(true, at)) && t.messages == [] && cfg.inactiveTimeout > 0
    ensures var r := t.Step(cfg, PingWritten(true, at));
      (r.expires == t.expires <==> at < t.expires) && (at >= t.expires ==> r.expires == at + cfg.Idle())
  {
    var u := t.Settle(WritePing);
    assert t.Step(cfg, PingWritten(true, at)) == u.RenewDeadline(cfg, at).ArmIdle(cfg, at);
  }
}
