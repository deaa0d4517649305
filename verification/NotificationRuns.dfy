/** What listeners can observe over whole runs of the notification protocol. */
module NotificationRuns {
  import opened Notification
  import opened NotificationInvariant

  ghost predicate Possible(p: Params, s: State, events: seq<Event>)
    decreases |events|
  {
    Shaped(p, s) &&
    (events == [] || (Enabled(p, s, events[0]) && Possible(p, Step(p, s, events[0]), events[1..])))
  }

  ghost function Run(p: Params, s: State, events: seq<Event>): State
    requires Possible(p, s, events)
    decreases |events|
  {
    if events == [] then s else Run(p, Step(p, s, events[0]), events[1..])
  }

  lemma SelectMonotone(p: Params, a: seq<Item>, b: seq<Item>, key: Key)
    requires p.queues > 0 && AllKnown(p, b) && a <= b
    ensures AllKnown(p, a) && Select(p, a, key) <= Select(p, b, key)
  {
    assert b == a + b[|a|..];
    SelectAppend(p, a, b[|a|..], key);
  }

  /** What a run accepts in the end bounds what it has accepted before. */
  lemma FirstStepKeeps(p: Params, s: State, events: seq<Event>)
    requires Inv(p, s) && Possible(p, s, events) && Disciplined(p, Run(p, s, events).accepted) && events != []
    ensures Inv(p, Step(p, s, events[0]))
  {
    RunAccepts(p, s, events);
    forall c | 0 <= c < |p.names| ensures Select(p, s.accepted, ByConn(c)) <= [OpenItem(c), CloseItem(c)] {
      SelectMonotone(p, s.accepted, Run(p, s, events).accepted, ByConn(c));
    }
    StepKeeps(p, s, events[0]);
  }

  lemma {:induction false} RunKeeps(p: Params, s: State, events: seq<Event>)
    requires Inv(p, s) && Possible(p, s, events) && Disciplined(p, Run(p, s, events).accepted)
    ensures Inv(p, Run(p, s, events))
    decreases |events|
  {
    if events != [] {
      FirstStepKeeps(p, s, events);
      RunKeeps(p, Step(p, s, events[0]), events[1..]);
    }
  }

  lemma {:induction false} RunAccepts(p: Params, s: State, events: seq<Event>)
    requires Possible(p, s, events)
    ensures s.accepted <= Run(p, s, events).accepted
    decreases |events|
  {
    if events != [] { RunAccepts(p, Step(p, s, events[0]), events[1..]); }
  }

  /** A listener sees at most one open that it lets succeed and at most one close, and a close
      only after its own successful open. */
  predicate Proper(h: seq<Mark>) {
    h == [] || h == [Threw] || h == [Ok] || h == [Ok, Shut]
  }

  lemma InvProper(p: Params, s: State, l: nat, c: Id)
    requires Inv(p, s) && l < p.listeners && c < |p.names|
    ensures Proper(History(s.trace, l, c))
  {
    var g, act := s.guards[c], Doing(p, s, c);
    assert ConnInv(p, g, act, Select(p, s.taken, ByConn(c)), s.trace, c);
    if !g.Canceled? { assert Knows(History(s.trace, l, c), g, act, l); }
  }

  /** The three guarantees, over every interleaving: what each listener sees of a connection is
      proper; the events of each receiver name are processed in push order without gaps; and a
      guard is touched by the one thread its name hashes to. */
  lemma ListenersSafe(p: Params, events: seq<Event>)
    requires p.queues > 0 && Possible(p, Start(p), events)
    requires Disciplined(p, Run(p, Start(p), events).accepted)
    ensures var s := Run(p, Start(p), events);
      && (forall l, c :: 0 <= l < p.listeners && 0 <= c < |p.names| ==> Proper(History(s.trace, l, c)))
      && AllKnown(p, s.taken)
      && (forall name :: Select(p, s.taken, ByName(name)) <= Select(p, s.accepted, ByName(name)))
      && OneThread(p, s)
  {
    StartKeeps(p);
    RunKeeps(p, Start(p), events);
    var s := Run(p, Start(p), events);
    forall l, c | 0 <= l < p.listeners && 0 <= c < |p.names| ensures Proper(History(s.trace, l, c)) {
      InvProper(p, s, l, c);
    }
    forall name ensures Select(p, s.taken, ByName(name)) <= Select(p, s.accepted, ByName(name)) {
      NameOrder(p, s, name);
    }
  }

  /** No thread is busy with the connection. */
  ghost predicate Unattended(p: Params, s: State, c: Id)
    requires Shaped(p, s)
  {
    forall i :: 0 <= i < p.queues ==> !About(s.workers[i].act, c)
  }

  /** Once an open has been rolled back, no listener hears of the connection again. */
  lemma StepSilent(p: Params, s: State, e: Event, c: Id)
    requires Inv(p, s) && Enabled(p, s, e) && c < |p.names| && s.guards[c].Canceled?
    ensures var t := Step(p, s, e);
      t.guards[c].Canceled? && forall l :: 0 <= l < p.listeners ==> History(t.trace, l, c) == History(s.trace, l, c)
  {
    NobodyIsAbout(p, s, c);
    StaysCanceled(p, s, e, c);
    forall l | 0 <= l < p.listeners ensures History(Step(p, s, e).trace, l, c) == History(s.trace, l, c) {
      StepUnheard(p, s, e, l, c);
    }
  }

  lemma StaysCanceled(p: Params, s: State, e: Event, c: Id)
    requires Shaped(p, s) && Enabled(p, s, e) && c < |p.names| && Unattended(p, s, c) && s.guards[c].Canceled?
    ensures Step(p, s, e).guards[c].Canceled?
  {
  }

  lemma StepUnheard(p: Params, s: State, e: Event, l: nat, c: Id)
    requires Shaped(p, s) && Enabled(p, s, e) && c < |p.names| && Unattended(p, s, c)
    ensures History(Step(p, s, e).trace, l, c) == History(s.trace, l, c)
  {
    if e.Callback? {
      HistoryAppend(s.trace, AfterCallback(p, s.workers[e.queue].act, e.throws).0);
    }
  }

  lemma NobodyIsAbout(p: Params, s: State, c: Id)
    requires Inv(p, s) && c < |p.names| && s.guards[c].Canceled?
    ensures Unattended(p, s, c)
  {
    assert ConnInv(p, s.guards[c], Doing(p, s, c), Select(p, s.taken, ByConn(c)), s.trace, c);
  }

  lemma {:induction false} RolledBackForGood(p: Params, s: State, events: seq<Event>, l: nat, c: Id)
    requires Inv(p, s) && Possible(p, s, events) && Disciplined(p, Run(p, s, events).accepted)
    requires c < |p.names| && s.guards[c].Canceled? && l < p.listeners
    ensures History(Run(p, s, events).trace, l, c) == History(s.trace, l, c)
    decreases |events|
  {
    if events != [] {
      StepSilent(p, s, events[0], c);
      FirstStepKeeps(p, s, events);
      RolledBackForGood(p, Step(p, s, events[0]), events[1..], l, c);
    }
  }

  /** When a connection's open and close have both been processed, either every listener saw
      both, or the open stopped at one listener and exactly those before it saw both. */
  lemma BothProcessed(p: Params, s: State, c: Id)
    requires Inv(p, s) && c < |p.names| && Doing(p, s, c).Idle?
    requires Select(p, s.taken, ByConn(c)) == [OpenItem(c), CloseItem(c)]
    ensures || (s.guards[c].Closed? && forall l :: 0 <= l < p.listeners ==> History(s.trace, l, c) == [Ok, Shut])
            || (s.guards[c].Canceled? && exists f :: Undone(p, s.trace, c, f))
  {
    var g := s.guards[c];
    assert ConnInv(p, g, Idle, Select(p, s.taken, ByConn(c)), s.trace, c);
    if !g.Canceled? {
      forall l | 0 <= l < p.listeners ensures History(s.trace, l, c) == [Ok, Shut] {
        assert Knows(History(s.trace, l, c), g, Idle, l);
      }
    }
  }

  // ---- Failed opens ----

  function One(b: bool): nat { if b then 1 else 0 }

  /** The reports of a failed open of `c` that the strand has taken. */
  function Reports(events: seq<Event>, c: Id): nat {
    if events == [] then 0 else One(events[0] == Report(c)) + Reports(events[1..], c)
  }

  /** A report comes into being when an open is rolled back, and goes when the strand takes it. */
  lemma StepReports(p: Params, s: State, e: Event, c: Id)
    requires Inv(p, s) && Enabled(p, s, e) && c < |p.names|
    ensures var t := Step(p, s, e);
      t.failed[c] + One(e == Report(c)) + One(s.guards[c].Canceled?) == s.failed[c] + One(t.guards[c].Canceled?)
  {
    match e
    case EndItem(i) => EndReports(p, s, i, c);
    case Take(i) => TakeReports(p, s, i, c);
    case _ =>
  }

  lemma EndReports(p: Params, s: State, i: nat, c: Id)
    requires Inv(p, s) && Enabled(p, s, EndItem(i)) && c < |p.names|
    ensures var t := Step(p, s, EndItem(i));
      t.failed[c] + One(s.guards[c].Canceled?) == s.failed[c] + One(t.guards[c].Canceled?)
  {
    if About(s.workers[i].act, c) {
      assert Doing(p, s, c) == s.workers[i].act;
      assert ConnInv(p, s.guards[c], s.workers[i].act, Select(p, s.taken, ByConn(c)), s.trace, c);
    }
  }

  lemma TakeReports(p: Params, s: State, i: nat, c: Id)
    requires Shaped(p, s) && Enabled(p, s, Take(i)) && c < |p.names|
    ensures var t := Step(p, s, Take(i));
      t.failed[c] == s.failed[c] && t.guards[c].Canceled? == s.guards[c].Canceled?
  {
  }

  /** In every run each rolled-back open is reported to the strand exactly once, and nothing else is. */
  lemma {:induction false} FailedOpensReported(p: Params, s: State, events: seq<Event>, c: Id)
    requires Inv(p, s) && Possible(p, s, events) && Disciplined(p, Run(p, s, events).accepted) && c < |p.names|
    ensures var t := Run(p, s, events);
      && |t.guards| == |p.names|
      && t.failed[c] + Reports(events, c) + One(s.guards[c].Canceled?) == s.failed[c] + One(t.guards[c].Canceled?)
    decreases |events|
  {
    if events != [] {
      StepReports(p, s, events[0], c);
      FirstStepKeeps(p, s, events);
      FailedOpensReported(p, Step(p, s, events[0]), events[1..], c);
    }
  }
}
