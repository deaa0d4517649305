/** What becomes of a `disconnected` event: who is told of it, over whole runs of the protocol
    and of the server. */
module Disconnects {
  import opened Notification
  import opened NotificationInvariant
  import opened NotificationRuns
  import S = StrandSpec
  import SI = StrandInvariant
  import SR = StrandRuns
  import Server
  import opened ThreadedQueue

  /** How often listener `l` was told that `name` is disconnected. */
  function Told(trace: seq<Call>, l: nat, name: string): nat {
    if trace == [] then 0
    else
      var last := trace[|trace| - 1];
      Told(trace[..|trace| - 1], l, name) +
      if last.LostCall? && last.listener == l && last.name == name then 1 else 0
  }

  /** How often it let that pass, without throwing. */
  function Passed(trace: seq<Call>, l: nat, name: string): nat {
    if trace == [] then 0
    else
      var last := trace[|trace| - 1];
      Passed(trace[..|trace| - 1], l, name) + if last == LostCall(l, name, false) then 1 else 0
  }

  /** How many of the items say that `name` is disconnected. */
  function Losses(items: seq<Item>, name: string): nat {
    if items == [] then 0
    else Losses(items[..|items| - 1], name) + if items[|items| - 1] == LostItem(name) then 1 else 0
  }

  lemma TraceAppend(trace: seq<Call>, call: Call, l: nat, name: string)
    ensures Told(trace + [call], l, name) ==
            Told(trace, l, name) + if call.LostCall? && call.listener == l && call.name == name then 1 else 0
    ensures Passed(trace + [call], l, name) == Passed(trace, l, name) + if call == LostCall(l, name, false) then 1 else 0
  {
    assert (trace + [call])[..|trace|] == trace;
  }

  lemma LossesLast(items: seq<Item>, item: Item, name: string)
    ensures Losses(items + [item], name) == Losses(items, name) + if item == LostItem(name) then 1 else 0
  {
    assert (items + [item])[..|items|] == items;
  }

  /** The call to listener `l` about `name` is the next that the thread of `name` makes. */
  predicate Due(p: Params, s: State, l: nat, name: string)
    requires p.queues > 0 && |s.workers| == p.queues
  {
    s.workers[Index(p, name)].act == Losing(name, l)
  }

  function One(b: bool): nat { if b then 1 else 0 }

  /** The first listener was told of each event begun, the others of each that the one before
      let pass; a call that is due is yet to come. */
  ghost predicate TellsOf(p: Params, s: State, name: string)
    requires p.queues > 0 && |s.workers| == p.queues
  {
    forall l :: 0 <= l < p.listeners ==> Tells(p, s, l, name)
  }

  predicate Tells(p: Params, s: State, l: nat, name: string)
    requires p.queues > 0 && |s.workers| == p.queues
  {
    Told(s.trace, l, name) + One(Due(p, s, l, name)) == Before(s, l, name)
  }

  ghost predicate Telling(p: Params, s: State) {
    && p.queues > 0 && |s.workers| == p.queues
    && (forall i, name :: 0 <= i < p.queues && s.workers[i].act.Losing? && s.workers[i].act.name == name ==>
          i == Index(p, name))
    && (forall name :: TellsOf(p, s, name))
  }

  lemma StartTells(p: Params)
    requires p.queues > 0
    ensures Telling(p, Start(p))
  {
  }

  /** Steps that touch neither acts, begun items nor calls. */
  lemma QuietTells(p: Params, s: State, t: State)
    requires Telling(p, s) && |t.workers| == p.queues && t.taken == s.taken && t.trace == s.trace
    requires forall i :: 0 <= i < p.queues ==> t.workers[i].act == s.workers[i].act
    ensures Telling(p, t)
  {
    forall name ensures TellsOf(p, t, name) {
      assert TellsOf(p, s, name);
      assert forall l :: 0 <= l < p.listeners ==> Tells(p, s, l, name) ==> Tells(p, t, l, name);
    }
  }

  lemma TakeTells(p: Params, s: State, i: nat)
    requires Telling(p, s) && Ordered(p, s) && Enabled(p, s, Take(i))
    ensures Telling(p, Step(p, s, Take(i)))
  {
    var t, item := Step(p, s, Take(i)), s.workers[i].batch[0];
    PendingAtHome(p, s, i);
    assert item in s.workers[i].batch;
    forall name ensures TellsOf(p, t, name) {
      assert TellsOf(p, s, name);
      LossesLast(s.taken, item, name);
      assert forall l :: 0 <= l < p.listeners ==> Tells(p, s, l, name) ==> Tells(p, t, l, name);
    }
  }

  lemma CallbackTells(p: Params, s: State, i: nat, throws: bool)
    requires Telling(p, s) && Shaped(p, s) && Enabled(p, s, Callback(i, throws))
    ensures Telling(p, Step(p, s, Callback(i, throws)))
  {
    var t := Step(p, s, Callback(i, throws));
    forall name ensures TellsOf(p, t, name) {
      CallbackTellsOf(p, s, i, throws, name);
    }
  }

  lemma CallbackTellsOf(p: Params, s: State, i: nat, throws: bool, name: string)
    requires Telling(p, s) && Shaped(p, s) && Enabled(p, s, Callback(i, throws))
    ensures TellsOf(p, Step(p, s, Callback(i, throws)), name)
  {
    assert TellsOf(p, s, name);
    if s.workers[i].act.Losing? && s.workers[i].act.name == name {
      LosingTellsOf(p, s, i, throws, name);
    } else {
      OtherTellsOf(p, s, i, throws, name);
    }
  }

  /** A call about something else. */
  lemma OtherTellsOf(p: Params, s: State, i: nat, throws: bool, name: string)
    requires p.queues > 0 && |s.workers| == p.queues && TellsOf(p, s, name)
    requires Shaped(p, s) && Enabled(p, s, Callback(i, throws))
    requires s.workers[i].act.Losing? ==> s.workers[i].act.name != name
    ensures TellsOf(p, Step(p, s, Callback(i, throws)), name)
  {
    var t := Step(p, s, Callback(i, throws));
    var call := AfterCallback(p, s.workers[i].act, throws).0;
    forall l | 0 <= l < p.listeners ensures Tells(p, t, l, name) {
      assert Tells(p, s, l, name);
      assert Due(p, t, l, name) == Due(p, s, l, name);
      TraceAppend(s.trace, call, l, name);
      if l > 0 { TraceAppend(s.trace, call, l - 1, name); }
    }
  }

  /** The call that is due. */
  lemma LosingTellsOf(p: Params, s: State, i: nat, throws: bool, name: string)
    requires p.queues > 0 && |s.workers| == p.queues && TellsOf(p, s, name) && i == Index(p, name)
    requires Shaped(p, s) && Enabled(p, s, Callback(i, throws))
    requires s.workers[i].act.Losing? && s.workers[i].act.name == name
    ensures TellsOf(p, Step(p, s, Callback(i, throws)), name)
  {
    forall l | 0 <= l < p.listeners ensures Tells(p, Step(p, s, Callback(i, throws)), l, name) {
      LosingTellsAt(p, s, i, throws, name, l);
    }
  }

  lemma LosingTellsAt(p: Params, s: State, i: nat, throws: bool, name: string, l: nat)
    requires p.queues > 0 && |s.workers| == p.queues && i == Index(p, name) && Tells(p, s, l, name)
    requires Shaped(p, s) && Enabled(p, s, Callback(i, throws))
    requires s.workers[i].act.Losing? && s.workers[i].act.name == name
    ensures Tells(p, Step(p, s, Callback(i, throws)), l, name)
  {
    LosingTells(p, s, i, throws, name, l);
    BeforeTells(p, s, i, throws, name, l);
  }

  /** What listener `l` is measured against: the one before it, or the events begun. */
  function Before(s: State, l: nat, name: string): nat {
    if l == 0 then Losses(s.taken, name) else Passed(s.trace, l - 1, name)
  }

  lemma BeforeTells(p: Params, s: State, i: nat, throws: bool, name: string, l: nat)
    requires p.queues > 0 && |s.workers| == p.queues && i == Index(p, name)
    requires Shaped(p, s) && Enabled(p, s, Callback(i, throws))
    requires s.workers[i].act.Losing? && s.workers[i].act.name == name
    ensures Before(Step(p, s, Callback(i, throws)), l, name) ==
            Before(s, l, name) + One(l == s.workers[i].act.next + 1 && !throws)
  {
    if l > 0 { LosingTells(p, s, i, throws, name, l - 1); }
  }

  lemma LosingTells(p: Params, s: State, i: nat, throws: bool, name: string, l: nat)
    requires p.queues > 0 && |s.workers| == p.queues && i == Index(p, name)
    requires Shaped(p, s) && Enabled(p, s, Callback(i, throws))
    requires s.workers[i].act.Losing? && s.workers[i].act.name == name
    ensures var t, k := Step(p, s, Callback(i, throws)), s.workers[i].act.next;
      && Told(t.trace, l, name) == Told(s.trace, l, name) + One(l == k)
      && Passed(t.trace, l, name) == Passed(s.trace, l, name) + One(l == k && !throws)
      && Due(p, s, l, name) == (l == k) && Due(p, t, l, name) == (l == k + 1 && !throws)
  {
    TraceAppend(s.trace, LostCall(s.workers[i].act.next, name, throws), l, name);
  }

  lemma EndTells(p: Params, s: State, i: nat)
    requires Telling(p, s) && Shaped(p, s) && Enabled(p, s, EndItem(i))
    ensures Telling(p, Step(p, s, EndItem(i)))
  {
    var t := Step(p, s, EndItem(i));
    forall name ensures TellsOf(p, t, name) {
      assert TellsOf(p, s, name);
      assert forall l :: 0 <= l < p.listeners ==> Tells(p, s, l, name) ==> Tells(p, t, l, name);
    }
  }

  lemma StepTells(p: Params, s: State, e: Event)
    requires Telling(p, s) && Ordered(p, s) && Enabled(p, s, e)
    ensures Telling(p, Step(p, s, e))
  {
    match e
    case Take(i) => TakeTells(p, s, i);
    case Callback(i, throws) => CallbackTells(p, s, i, throws);
    case EndItem(i) => EndTells(p, s, i);
    case _ => QuietTells(p, s, Step(p, s, e));
  }

  lemma {:induction false} RunTells(p: Params, s: State, events: seq<Event>)
    requires Telling(p, s) && Ordered(p, s) && Possible(p, s, events)
    ensures Telling(p, Run(p, s, events))
    decreases |events|
  {
    if events != [] {
      StepTells(p, s, events[0]);
      StepOrdered(p, s, events[0]);
      RunTells(p, Step(p, s, events[0]), events[1..]);
    }
  }

  /** In every run: the first listener has been told of a name's disconnection as often as such
      events have been begun, each further one as often as the one before let it pass; less the
      one call that is due. */
  lemma EveryLossIsTold(p: Params, events: seq<Event>, name: string)
    requires p.queues > 0 && Possible(p, Start(p), events)
    ensures var s := Run(p, Start(p), events); |s.workers| == p.queues && TellsOf(p, s, name)
  {
    StartTells(p);
    RunTells(p, Start(p), events);
  }

  // ---- The server ----

  /** How often the manager has reported `name` as disconnected. */
  function Reported(fired: seq<S.Fired>, name: string): nat {
    multiset(SR.DisconnectsOf(fired))[name]
  }

  lemma ReportedLast(fired: seq<S.Fired>, f: S.Fired, name: string)
    ensures Reported(fired + [f], name) == Reported(fired, name) + One(f == S.Disconnected(name))
  {
    assert (fired + [f])[..|fired|] == fired;
  }

  /** The queue of a name accepted every report, unless it has finished, which cuts some off. */
  ghost predicate Accepts(q: Params, n: State, fired: seq<S.Fired>, name: string)
    requires Shaped(q, n)
  {
    if n.queues[Index(q, name)].finished then Losses(n.accepted, name) <= Reported(fired, name)
    else Losses(n.accepted, name) == Reported(fired, name)
  }

  ghost predicate Reporting(q: Params, n: State, fired: seq<S.Fired>) {
    Shaped(q, n) && Telling(q, n) && forall name :: Accepts(q, n, fired, name)
  }

  lemma PushReports(q: Params, n: State, fired: seq<S.Fired>, f: S.Fired)
    requires Reporting(q, n, fired) && Enabled(q, n, Push(Server.ItemOf(f)))
    ensures Reporting(q, Step(q, n, Push(Server.ItemOf(f))), fired + [f])
  {
    var m := Step(q, n, Push(Server.ItemOf(f)));
    QuietTells(q, n, m);
    forall name ensures Accepts(q, m, fired + [f], name) {
      assert Accepts(q, n, fired, name);
      ReportedLast(fired, f, name);
      LossesLast(n.accepted, Server.ItemOf(f), name);
    }
  }

  lemma {:induction false} FeedReports(p: Server.Setup, n: State, told: seq<S.Fired>, fired: seq<S.Fired>)
    requires Server.Sound(p) && Reporting(p.Params(), n, told) && SI.FiredKnown(p.strand, fired)
    ensures Reporting(p.Params(), Server.Feed(p, n, fired), told + fired)
  {
    if fired == [] {
      assert told + fired == told;
    } else {
      var init, last := fired[..|fired| - 1], fired[|fired| - 1];
      FeedReports(p, n, told, init);
      PushReports(p.Params(), Server.Feed(p, n, init), told + init, last);
      assert (told + init) + [last] == told + fired;
    }
  }

  lemma ThreadReports(q: Params, n: State, ne: Event, fired: seq<S.Fired>)
    requires Reporting(q, n, fired) && Ordered(q, n) && Enabled(q, n, ne) && !ne.Push?
    ensures Reporting(q, Step(q, n, ne), fired)
  {
    StepTells(q, n, ne);
    StepShaped(q, n, ne);
    Server.ThreadQuiet(q, n, ne);
    forall name ensures Accepts(q, Step(q, n, ne), fired, name) {
      assert Accepts(q, n, fired, name);
    }
  }

  lemma MovesReport(p: Server.Setup, s: Server.State, world: S.World, notif: State, t: Server.State)
    requires Server.Shaped(p, s) && Server.Moves(p, s, world, notif, t)
    requires Reporting(p.Params(), notif, s.world.fired)
    ensures Reporting(p.Params(), t.notif, t.world.fired)
  {
    var added := world.fired[|s.world.fired|..];
    assert s.world.fired + added == world.fired;
    FeedReports(p, notif, s.world.fired, added);
  }

  lemma TurnReports(p: Server.Setup, s: Server.State, e: Server.Event, t: Server.State)
    requires Server.Inv(p, s) && Server.Turn(p, s, e, t) && Reporting(p.Params(), s.notif, s.world.fired)
    ensures Reporting(p.Params(), t.notif, t.world.fired)
  {
    match e
    case Strand(se) => MovesReport(p, s, S.Step(p.strand, s.world, se), s.notif, t);
    case Thread(ne) => ThreadReports(p.Params(), s.notif, ne, s.world.fired);
    case FailedOpen(c) =>
      ThreadReports(p.Params(), s.notif, Report(c), s.world.fired);
      MovesReport(p, s, S.AfterOpenFailed(p.strand, s.world, p.strand.cfgs[c].name, c),
                  Step(p.Params(), s.notif, Report(c)), t);
  }

  lemma StartReports(p: Server.Setup)
    requires Server.Sound(p)
    ensures Reporting(p.Params(), Start(p.Params()), [])
  {
    StartTells(p.Params());
  }

  lemma {:induction false} RunReports(p: Server.Setup, now: int, states: seq<Server.State>, events: seq<Server.Event>, k: nat)
    requires Server.Sound(p) && Server.IsRun(p, now, states, events) && k <= |events|
    ensures Reporting(p.Params(), states[k].notif, states[k].world.fired)
  {
    if k == 0 {
      StartReports(p);
    } else {
      RunReports(p, now, states, events, k - 1);
      ReportsOn(p, now, states, events, k - 1);
    }
  }

  lemma ReportsOn(p: Server.Setup, now: int, states: seq<Server.State>, events: seq<Server.Event>, k: nat)
    requires Server.Sound(p) && Server.IsRun(p, now, states, events) && k < |events|
    requires Reporting(p.Params(), states[k].notif, states[k].world.fired)
    ensures Reporting(p.Params(), states[k + 1].notif, states[k + 1].world.fired)
  {
    Server.RunKeeps(p, now, states, events, k);
    Server.TurnAt(p, now, states, events, k);
    TurnReports(p, states[k], events[k], states[k + 1]);
  }

  lemma {:induction false} LossesSelected(p: Params, items: seq<Item>, name: string)
    requires p.queues > 0 && AllKnown(p, items)
    ensures Losses(Select(p, items, ByQueue(Index(p, name))), name) == Losses(items, name)
  {
    if items != [] {
      var init, last := items[..|items| - 1], items[|items| - 1];
      var key := ByQueue(Index(p, name));
      LossesSelected(p, init, name);
      LossesLast(Select(p, init, key), last, name);
      assert !Matches(p, key, last) ==> last != LostItem(name) && Select(p, items, key) == Select(p, init, key);
    }
  }

  /** A queue with nothing pending has begun every disconnection that it accepted. */
  lemma AllBegun(p: Params, s: State, name: string)
    requires Ordered(p, s)
    requires var i := Index(p, name); s.queues[i].items == [] && s.workers[i].batch == []
    ensures Losses(s.taken, name) == Losses(s.accepted, name)
  {
    var i := Index(p, name);
    var begun := Select(p, s.taken, ByQueue(i));
    assert QueueOrdered(p, s, i);
    assert begun + [] + [] == begun;
    LossesSelected(p, s.taken, name);
    LossesSelected(p, s.accepted, name);
  }

  /** In every server run: once the queue and the thread of a name are idle and not finished, the
      first listener has been told exactly once of each disconnection that the manager reported
      for the name, and each further listener of those that the one before it let pass. */
  lemma ReportsAreTold(p: Server.Setup, now: int, states: seq<Server.State>, events: seq<Server.Event>, k: nat, name: string)
    requires Server.Sound(p) && Server.IsRun(p, now, states, events) && k <= |events|
    requires var n := states[k].notif; var i := Index(p.Params(), name);
      && i < |n.queues| && i < |n.workers|
      && n.queues[i] == Queue([], false) && n.workers[i] == Worker([], Idle)
    ensures var trace := states[k].notif.trace;
      && Told(trace, 0, name) == Reported(states[k].world.fired, name)
      && forall l :: 0 < l < p.listeners ==> Told(trace, l, name) == Passed(trace, l - 1, name)
  {
    RunReports(p, now, states, events, k);
    Server.RunKeeps(p, now, states, events, k);
    RestTold(p.Params(), states[k].notif, states[k].world.fired, name);
  }

  lemma RestTold(q: Params, n: State, fired: seq<S.Fired>, name: string)
    requires Reporting(q, n, fired) && Ordered(q, n) && q.listeners > 0
    requires n.queues[Index(q, name)] == Queue([], false) && n.workers[Index(q, name)] == Worker([], Idle)
    ensures Told(n.trace, 0, name) == Reported(fired, name)
    ensures forall l :: 0 < l < q.listeners ==> Told(n.trace, l, name) == Passed(n.trace, l - 1, name)
  {
    assert TellsOf(q, n, name);
    assert Accepts(q, n, fired, name);
    AllBegun(q, n, name);
    assert Tells(q, n, 0, name);
    forall l | 0 < l < q.listeners ensures Told(n.trace, l, name) == Passed(n.trace, l - 1, name) {
      assert Tells(q, n, l, name);
    }
  }
}
