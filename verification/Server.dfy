/** The strand and the notification threads together: what the manager fires is pushed to the
    hashed queues, and failed opens are reported back to the strand. */
module Server {
  import S = StrandSpec
  import SI = StrandInvariant
  import SR = StrandRuns
  import N = Notification
  import NI = NotificationInvariant
  import NR = NotificationRuns
  import Q = ThreadedQueue
  import C = ConnectionSpec

  datatype Setup = Setup(strand: S.Setup, listeners: nat, queues: nat, hash: string -> nat) {
    function Params(): N.Params {
      N.Params(seq(|strand.cfgs|, c requires 0 <= c < |strand.cfgs| => strand.cfgs[c].name), listeners, queues, hash)
    }
  }

  ghost predicate Sound(p: Setup) {
    SI.Sane(p.strand) && p.queues > 0 && p.listeners > 0
  }

  datatype State = State(world: S.World, notif: N.State)

  function ItemOf(f: S.Fired): N.Item {
    match f
    case Opened(c) => N.OpenItem(c)
    case Closed(c) => N.CloseItem(c)
    case Disconnected(name) => N.LostItem(name)
  }

  /** The pushes that a strand step makes, in order. */
  ghost function Feed(p: Setup, n: N.State, fired: seq<S.Fired>): (r: N.State)
    requires N.Shaped(p.Params(), n) && Sound(p) && SI.FiredKnown(p.strand, fired)
    ensures N.Shaped(p.Params(), r)
    ensures r.trace == n.trace && r.guards == n.guards && r.failed == n.failed
  {
    if fired == [] then n
    else
      var init := fired[..|fired| - 1];
      N.Step(p.Params(), Feed(p, n, init), N.Push(ItemOf(fired[|fired| - 1])))
  }

  datatype Event =
    | Strand(step: S.Event)
    | Thread(event: N.Event)
    | FailedOpen(conn: S.Id)     // the strand takes the report of a failed open

  ghost predicate Shaped(p: Setup, s: State) {
    && Sound(p) && S.WellFormed(p.strand, s.world) && N.Shaped(p.Params(), s.notif)
    && SI.FiredKnown(p.strand, s.world.fired)
  }

  ghost predicate Enabled(p: Setup, s: State, e: Event)
    requires Shaped(p, s)
  {
    match e
    case Strand(se) => !se.OpenFailed? && S.Enabled(p.strand, s.world, se)
    case Thread(ne) => !ne.Push? && !ne.Report? && N.Enabled(p.Params(), s.notif, ne)
    case FailedOpen(c) => c in s.notif.failed && c < |p.strand.cfgs|
  }

  ghost predicate Moves(p: Setup, s: State, world: S.World, notif: N.State, t: State)
    requires Shaped(p, s)
  {
    && t.world == world && s.world.fired <= world.fired && SI.FiredKnown(p.strand, world.fired)
    && N.Shaped(p.Params(), notif)
    && t.notif == Feed(p, notif, world.fired[|s.world.fired|..])
  }

  ghost predicate Next(p: Setup, s: State, e: Event, t: State)
    requires Shaped(p, s) && Enabled(p, s, e)
  {
    match e
    case Strand(se) => Moves(p, s, S.Step(p.strand, s.world, se), s.notif, t)
    case Thread(ne) => t == State(s.world, N.Step(p.Params(), s.notif, ne))
    case FailedOpen(c) =>
      Moves(p, s, S.AfterOpenFailed(p.strand, s.world, p.strand.cfgs[c].name, c),
            N.Step(p.Params(), s.notif, N.Report(c)), t)
  }

  /** A run: states[k + 1] follows states[k] by events[k]. */
  ghost predicate IsRun(p: Setup, now: int, states: seq<State>, events: seq<Event>) {
    && |states| == |events| + 1
    && states[0] == State(S.Start(p.strand, now), N.Start(p.Params()))
    && (forall k :: 0 <= k < |events| ==> Turn(p, states[k], events[k], states[k + 1]))
  }

  ghost predicate Turn(p: Setup, s: State, e: Event, t: State) {
    Shaped(p, s) && Enabled(p, s, e) && Next(p, s, e, t)
  }

  // ---- The two halves agree ----

  function Items(c: S.Id, ops: seq<C.RegistryOp>): seq<N.Item> {
    seq(|ops|, k requires 0 <= k < |ops| => if ops[k].Insert? then N.OpenItem(c) else N.CloseItem(c))
  }

  predicate Cut(finished: bool, accepted: seq<N.Item>, told: seq<N.Item>) {
    if finished then accepted <= told else accepted == told
  }

  ghost predicate FedConn(q: N.Params, n: N.State, told: seq<S.Fired>, c: S.Id)
    requires N.Shaped(q, n) && N.AllKnown(q, n.accepted) && c < |q.names|
  {
    Cut(n.queues[N.Index(q, q.names[c])].finished, N.Select(q, n.accepted, N.ByConn(c)), Items(c, SI.ToldOf(told, c)))
  }

  /** The queue of a connection accepted everything the listener was told about it, unless
      the queue has finished, which cuts a suffix off. */
  ghost predicate Fed(p: Setup, n: N.State, fired: seq<S.Fired>) {
    && N.Shaped(p.Params(), n) && N.AllKnown(p.Params(), n.accepted)
    && (forall c :: 0 <= c < |p.strand.cfgs| ==> FedConn(p.Params(), n, fired, c))
  }

  ghost predicate Inv(p: Setup, s: State) {
    && Shaped(p, s) && SI.StrandInv(p.strand, s.world)
    && NI.Inv(p.Params(), s.notif) && Fed(p, s.notif, s.world.fired)
  }

  lemma ItemsAppend(c: S.Id, ops: seq<C.RegistryOp>, op: C.RegistryOp)
    ensures Items(c, ops + [op]) == Items(c, ops) + Items(c, [op])
  {
  }

  lemma ToldDisciplined(p: Setup, s: State)
    requires Shaped(p, s) && SI.StrandInv(p.strand, s.world) && Fed(p, s.notif, s.world.fired)
    ensures NI.Disciplined(p.Params(), s.notif.accepted)
  {
    forall c | 0 <= c < |p.strand.cfgs|
      ensures N.Select(p.Params(), s.notif.accepted, N.ByConn(c)) <= [N.OpenItem(c), N.CloseItem(c)]
    {
      var told := SI.ToldOf(s.world.fired, c);
      assert FedConn(p.Params(), s.notif, s.world.fired, c);
      assert told <= s.world.conns[c].registry <= [C.Insert, C.Remove];
      assert Items(c, told) <= [N.OpenItem(c), N.CloseItem(c)];
    }
  }

  lemma PushSelected(q: N.Params, n: N.State, item: N.Item, c: S.Id)
    requires N.Shaped(q, n) && N.AllKnown(q, n.accepted) && N.Enabled(q, n, N.Push(item)) && c < |q.names|
    ensures var m := N.Step(q, n, N.Push(item)); var i := N.Index(q, q.names[c]);
      && N.AllKnown(q, m.accepted) && m.queues[i].finished == n.queues[i].finished
      && N.Select(q, m.accepted, N.ByConn(c)) == N.Select(q, n.accepted, N.ByConn(c)) +
           if N.Matches(q, N.ByConn(c), item) && !n.queues[i].finished then [item] else []
  {
    NI.SelectLast(q, n.accepted, item, N.ByConn(c));
  }

  lemma PushFedConn(q: N.Params, n: N.State, told: seq<S.Fired>, f: S.Fired, c: S.Id)
    requires N.Shaped(q, n) && N.AllKnown(q, n.accepted) && N.Enabled(q, n, N.Push(ItemOf(f))) && c < |q.names|
    requires FedConn(q, n, told, c)
    ensures var m := N.Step(q, n, N.Push(ItemOf(f)));
      N.AllKnown(q, m.accepted) && FedConn(q, m, told + [f], c)
  {
    PushSelected(q, n, ItemOf(f), c);
    ItemsTold(c, told, f);
  }

  lemma ItemsTold(c: S.Id, told: seq<S.Fired>, f: S.Fired)
    ensures Items(c, SI.ToldOf(told + [f], c)) ==
            Items(c, SI.ToldOf(told, c)) + if ItemOf(f) in {N.OpenItem(c), N.CloseItem(c)} then [ItemOf(f)] else []
  {
    SI.ToldOne(told, f, c);
    ItemsAppend(c, SI.ToldOf(told, c), C.Insert);
    ItemsAppend(c, SI.ToldOf(told, c), C.Remove);
  }

  lemma PushFed(p: Setup, n: N.State, told: seq<S.Fired>, f: S.Fired)
    requires Sound(p) && Fed(p, n, told) && NI.Inv(p.Params(), n) && (f.Disconnected? || f.conn < |p.strand.cfgs|)
    ensures var m := N.Step(p.Params(), n, N.Push(ItemOf(f))); Fed(p, m, told + [f]) && NI.Inv(p.Params(), m)
  {
    var e := N.Push(ItemOf(f));
    NI.StepOrdered(p.Params(), n, e);
    NI.QuietStep(p.Params(), n, N.Step(p.Params(), n, e));
    forall c | 0 <= c < |p.strand.cfgs| {
      PushFedConn(p.Params(), n, told, f, c);
    }
  }

  lemma {:induction false} FeedKeeps(p: Setup, n: N.State, told: seq<S.Fired>, fired: seq<S.Fired>)
    requires Sound(p) && Fed(p, n, told) && NI.Inv(p.Params(), n) && SI.FiredKnown(p.strand, fired)
    ensures Fed(p, Feed(p, n, fired), told + fired) && NI.Inv(p.Params(), Feed(p, n, fired))
    ensures forall i :: 0 <= i < p.queues ==> Feed(p, n, fired).queues[i].finished == n.queues[i].finished
  {
    if fired == [] {
      assert told + fired == told;
    } else {
      var init, last := fired[..|fired| - 1], fired[|fired| - 1];
      FeedKeeps(p, n, told, init);
      PushFed(p, Feed(p, n, init), told + init, last);
      assert (told + init) + [last] == told + fired;
    }
  }

  /** A thread's step accepts nothing and restarts no queue. */
  lemma ThreadQuiet(q: N.Params, n: N.State, ne: N.Event)
    requires N.Shaped(q, n) && N.Enabled(q, n, ne) && !ne.Push?
    ensures var m := N.Step(q, n, ne);
      && m.accepted == n.accepted
      && (forall i :: 0 <= i < q.queues && n.queues[i].finished ==> m.queues[i].finished)
  {
  }

  lemma ThreadFed(p: Setup, n: N.State, ne: N.Event, told: seq<S.Fired>)
    requires Fed(p, n, told) && NI.Ordered(p.Params(), n) && N.Enabled(p.Params(), n, ne) && !ne.Push?
    ensures Fed(p, N.Step(p.Params(), n, ne), told)
  {
    var m := N.Step(p.Params(), n, ne);
    NI.StepShaped(p.Params(), n, ne);
    ThreadQuiet(p.Params(), n, ne);
    forall c | 0 <= c < |p.strand.cfgs| ensures FedConn(p.Params(), m, told, c) {
      assert FedConn(p.Params(), n, told, c);
    }
  }

  lemma MovesKeep(p: Setup, s: State, world: S.World, notif: N.State, t: State)
    requires Inv(p, s) && Moves(p, s, world, notif, t)
    requires SI.StrandInv(p.strand, world) && S.WellFormed(p.strand, world)
    requires NI.Inv(p.Params(), notif) && Fed(p, notif, s.world.fired)
    ensures Inv(p, t)
  {
    FeedRest(p, notif, s.world.fired, world.fired);
  }

  lemma FeedRest(p: Setup, n: N.State, told: seq<S.Fired>, fired: seq<S.Fired>)
    requires Sound(p) && Fed(p, n, told) && NI.Inv(p.Params(), n) && told <= fired && SI.FiredKnown(p.strand, fired)
    ensures SI.FiredKnown(p.strand, fired[|told|..])
    ensures var m := Feed(p, n, fired[|told|..]); Fed(p, m, fired) && NI.Inv(p.Params(), m)
  {
    var added := fired[|told|..];
    assert told + added == fired;
    FeedKeeps(p, n, told, added);
  }

  lemma NextKeeps(p: Setup, s: State, e: Event, t: State)
    requires Inv(p, s) && Enabled(p, s, e) && Next(p, s, e, t)
    ensures Inv(p, t)
  {
    match e
    case Strand(se) =>
      SI.StepKeeps(p.strand, s.world, se);
      MovesKeep(p, s, S.Step(p.strand, s.world, se), s.notif, t);
    case Thread(ne) => ThreadKeeps(p, s, ne);
    case FailedOpen(c) =>
      var name := p.strand.cfgs[c].name;
      SI.StepKeeps(p.strand, s.world, S.OpenFailed(name, c));
      ThreadKeeps(p, s, N.Report(c));
      MovesKeep(p, s, S.AfterOpenFailed(p.strand, s.world, name, c), N.Step(p.Params(), s.notif, N.Report(c)), t);
  }

  lemma ThreadKeeps(p: Setup, s: State, ne: N.Event)
    requires Inv(p, s) && N.Enabled(p.Params(), s.notif, ne) && !ne.Push?
    ensures Inv(p, State(s.world, N.Step(p.Params(), s.notif, ne)))
  {
    NI.StepKeeps(p.Params(), s.notif, ne) by { ToldDisciplined(p, s); }
    ThreadFed(p, s.notif, ne, s.world.fired);
  }

  lemma StartKeeps(p: Setup, now: int)
    requires Sound(p)
    ensures Inv(p, State(S.Start(p.strand, now), N.Start(p.Params())))
  {
    SR.StartKeeps(p.strand, now);
    NI.StartKeeps(p.Params());
  }

  lemma TurnAt(p: Setup, now: int, states: seq<State>, events: seq<Event>, k: nat)
    requires IsRun(p, now, states, events) && k < |events|
    ensures Turn(p, states[k], events[k], states[k + 1])
  {
  }

  lemma TurnKeeps(p: Setup, now: int, states: seq<State>, events: seq<Event>, k: nat)
    requires IsRun(p, now, states, events) && k < |events| && Inv(p, states[k])
    ensures Inv(p, states[k + 1])
  {
    TurnAt(p, now, states, events, k);
    NextKeeps(p, states[k], events[k], states[k + 1]);
  }

  lemma {:induction false} RunKeeps(p: Setup, now: int, states: seq<State>, events: seq<Event>, k: nat)
    requires Sound(p) && IsRun(p, now, states, events) && k <= |events|
    ensures Inv(p, states[k])
  {
    if k == 0 {
      StartKeeps(p, now);
    } else {
      RunKeeps(p, now, states, events, k - 1);
      TurnKeeps(p, now, states, events, k - 1);
    }
  }

  /** In every interleaving of connection handlers, sends, failed opens, shutdown and listener
      threads: each listener sees a connection properly (at most one successful open, at most
      one close, after it), the events of each receiver are processed in push order, and no
      guard is touched by two threads. */
  lemma ListenersSeeProperHistories(p: Setup, now: int, states: seq<State>, events: seq<Event>, k: nat)
    requires Sound(p) && IsRun(p, now, states, events) && k <= |events|
    ensures var n := states[k].notif;
      && (forall l, c :: 0 <= l < p.listeners && 0 <= c < |p.strand.cfgs| ==> NR.Proper(N.History(n.trace, l, c)))
      && N.AllKnown(p.Params(), n.taken) && N.AllKnown(p.Params(), n.accepted)
      && (forall name :: N.Select(p.Params(), n.taken, N.ByName(name)) <= N.Select(p.Params(), n.accepted, N.ByName(name)))
      && NI.OneThread(p.Params(), n)
  {
    RunKeeps(p, now, states, events, k);
    var n := states[k].notif;
    forall l, c | 0 <= l < p.listeners && 0 <= c < |p.strand.cfgs| ensures NR.Proper(N.History(n.trace, l, c)) {
      NR.InvProper(p.Params(), n, l, c);
    }
    forall name ensures N.Select(p.Params(), n.taken, N.ByName(name)) <= N.Select(p.Params(), n.accepted, N.ByName(name)) {
      NI.NameOrder(p.Params(), n, name);
    }
  }

  /** A connection of which the manager has told the insertion and the removal, whose queue still
      runs and has nothing pending: every listener saw its open and its close, or its open was
      rolled back. */
  lemma GoneConnectionsAreClosed(p: Setup, now: int, states: seq<State>, events: seq<Event>, k: nat, c: S.Id)
    requires Sound(p) && IsRun(p, now, states, events) && k <= |events| && c < |p.strand.cfgs|
    requires var s := states[k]; var i := N.Index(p.Params(), p.strand.cfgs[c].name);
      && SI.ToldOf(s.world.fired, c) == [C.Insert, C.Remove]
      && i < |s.notif.queues| && i < |s.notif.workers|
      && s.notif.queues[i] == Q.Queue([], false) && s.notif.workers[i] == N.Worker([], N.Idle)
    ensures var trace := states[k].notif.trace;
      || (forall l :: 0 <= l < p.listeners ==> N.History(trace, l, c) == [N.Ok, N.Shut])
      || (exists f :: NI.Undone(p.Params(), trace, c, f))
  {
    RunKeeps(p, now, states, events, k);
    var s := states[k];
    var i := N.Index(p.Params(), p.strand.cfgs[c].name);
    assert FedConn(p.Params(), s.notif, s.world.fired, c);
    assert Items(c, [C.Insert, C.Remove]) == [N.OpenItem(c), N.CloseItem(c)];
    NI.Drained(p.Params(), s.notif, c);
    NR.BothProcessed(p.Params(), s.notif, c);
  }

  /** The open of `c` has been rolled back. */
  predicate Canceled(s: State, c: S.Id) {
    c < |s.notif.guards| && s.notif.guards[c].Canceled?
  }

  lemma TurnSilent(p: Setup, s: State, e: Event, t: State, l: nat, c: S.Id)
    requires Inv(p, s) && Turn(p, s, e, t)
    requires c < |p.strand.cfgs| && l < p.listeners && Canceled(s, c)
    ensures Canceled(t, c)
    ensures N.History(t.notif.trace, l, c) == N.History(s.notif.trace, l, c)
  {
    match e
    case Strand(_) =>
    case Thread(ne) => NR.StepSilent(p.Params(), s.notif, ne, c);
    case FailedOpen(d) => NR.StepSilent(p.Params(), s.notif, N.Report(d), c);
  }

  lemma SilentAt(p: Setup, now: int, states: seq<State>, events: seq<Event>, k: nat, l: nat, c: S.Id)
    requires Sound(p) && IsRun(p, now, states, events) && k < |events| && c < |p.strand.cfgs| && l < p.listeners
    requires Canceled(states[k], c)
    ensures Canceled(states[k + 1], c)
    ensures N.History(states[k + 1].notif.trace, l, c) == N.History(states[k].notif.trace, l, c)
  {
    RunKeeps(p, now, states, events, k);
    TurnAt(p, now, states, events, k);
    TurnSilent(p, states[k], events[k], states[k + 1], l, c);
  }

  /** Once the open of a connection has been rolled back, no listener hears of it again,
      whatever the server does. */
  lemma {:induction false} RolledBackForGood(p: Setup, now: int, states: seq<State>, events: seq<Event>, j: nat, k: nat,
                                             l: nat, c: S.Id)
    requires Sound(p) && IsRun(p, now, states, events) && j <= k <= |events| && c < |p.strand.cfgs| && l < p.listeners
    requires Canceled(states[j], c)
    ensures Canceled(states[k], c)
    ensures N.History(states[k].notif.trace, l, c) == N.History(states[j].notif.trace, l, c)
    decreases k - j
  {
    if j < k {
      SilentAt(p, now, states, events, j, l, c);
      RolledBackForGood(p, now, states, events, j + 1, k, l, c);
    }
  }

  /** How often the strand was told that the open of `c` failed. */
  function Failures(events: seq<Event>, c: S.Id): nat {
    if events == [] then 0
    else Failures(events[..|events| - 1], c) + NR.One(events[|events| - 1] == FailedOpen(c))
  }

  lemma TurnReports(p: Setup, s: State, e: Event, t: State, c: S.Id)
    requires Inv(p, s) && Turn(p, s, e, t) && c < |p.strand.cfgs|
    ensures c < |t.notif.guards|
    ensures t.notif.failed[c] + NR.One(e == FailedOpen(c)) + NR.One(Canceled(s, c)) ==
            s.notif.failed[c] + NR.One(Canceled(t, c))
  {
    match e
    case Strand(_) =>
    case Thread(ne) => NR.StepReports(p.Params(), s.notif, ne, c);
    case FailedOpen(d) => NR.StepReports(p.Params(), s.notif, N.Report(d), c);
  }

  /** The reports on their way and the `taken` ones make one if the open was rolled back. */
  predicate Tallies(s: State, taken: nat, c: S.Id) {
    s.notif.failed[c] + taken == NR.One(Canceled(s, c))
  }

  lemma ReportsAt(p: Setup, now: int, states: seq<State>, events: seq<Event>, k: nat, taken: nat, c: S.Id)
    requires Sound(p) && IsRun(p, now, states, events) && k < |events| && c < |p.strand.cfgs|
    requires Tallies(states[k], taken, c)
    ensures Tallies(states[k + 1], taken + NR.One(events[k] == FailedOpen(c)), c)
  {
    RunKeeps(p, now, states, events, k);
    TurnAt(p, now, states, events, k);
    TurnReports(p, states[k], events[k], states[k + 1], c);
  }

  /** In every server run the strand is told once of each open that was rolled back, and of no
      other; a report that it has not taken yet is on its way. */
  lemma {:induction false} FailedOpensReported(p: Setup, now: int, states: seq<State>, events: seq<Event>, k: nat, c: S.Id)
    requires Sound(p) && IsRun(p, now, states, events) && k <= |events| && c < |p.strand.cfgs|
    ensures Tallies(states[k], Failures(events[..k], c), c)
  {
    if k == 0 {
      assert events[..0] == [];
      NoFailureYet(p, now, states, events, c);
    } else {
      FailedOpensReported(p, now, states, events, k - 1, c);
      ReportsAt(p, now, states, events, k - 1, Failures(events[..k - 1], c), c);
      FailuresAt(events, k - 1, c);
    }
  }

  lemma NoFailureYet(p: Setup, now: int, states: seq<State>, events: seq<Event>, c: S.Id)
    requires IsRun(p, now, states, events) && c < |p.strand.cfgs|
    ensures Tallies(states[0], 0, c)
  {
    assert states[0].notif == N.Start(p.Params());
  }

  lemma FailuresAt(events: seq<Event>, k: nat, c: S.Id)
    requires k < |events|
    ensures Failures(events[..k + 1], c) == Failures(events[..k], c) + NR.One(events[k] == FailedOpen(c))
  {
    assert events[..k + 1][..k] == events[..k];
  }
}
