/** The strand: the connection manager with its two indexes, the channel counters, the events
    handed to the listener, and the connections whose handlers run between the manager's own
    calls. Models include/details/connection_manager.hpp and library/connection_manager_base.cpp.

    Connections are named by their position in `Setup.cfgs`, not by address, so an id is never
    reused. The listener is the threaded one, whose `_ex` calls only push and do not throw. */
module StrandSpec {
  import opened Messages
  import opened ConnectionSpec
  import opened ChannelsStat

  type Id = nat

  /** All the connections of a run, with what never changes about each. */
  datatype Setup = Setup(cfgs: seq<Config>, tracking: bool)

  datatype Fired = Opened(conn: Id) | Closed(conn: Id) | Disconnected(name: string)

  /** The multi-index container: hashed unique by id, ordered non-unique by name. */
  datatype Registry = Registry(byId: set<Id>, byName: map<string, seq<Id>>) {
    function Named(name: string): seq<Id> {
      if name in byName then byName[name] else []
    }

    function Add(c: Id, name: string): Registry {
      Registry(byId + {c}, byName[name := Named(name) + [c]])
    }

    function Erase(c: Id, name: string): Registry {
      Registry(byId - {c}, byName[name := Without(Named(name), c)])
    }
  }

  datatype World = World(
    conns: seq<Conn>,
    registry: Registry,
    finished: bool,
    stat: Stat,
    fired: seq<Fired>)

  function Start(p: Setup, now: int): World {
    World(seq(|p.cfgs|, c requires 0 <= c < |p.cfgs| => ConnectionSpec.Start(p.cfgs[c], now)),
          Registry({}, map[]), false, map[], [])
  }

  function ChannelsOf(p: Setup, c: Id): seq<ChannelId>
    requires c < |p.cfgs|
  {
    p.cfgs[c].formatters.Subscriptions()
  }

  /** Refused after finish; the container takes no connection twice. */
  function AfterInsert(p: Setup, w: World, c: Id): World
    requires c < |p.cfgs|
  {
    if w.finished || c in w.registry.byId then w
    else World(w.conns, w.registry.Add(c, p.cfgs[c].name), false,
               if p.tracking then IncAll(w.stat, ChannelsOf(p, c)) else w.stat,
               w.fired + [Opened(c)])
  }

  /** None of the counter assertions fails when `c` is removed. */
  predicate RemovalSafe(p: Setup, w: World, c: Id)
    requires c < |p.cfgs|
  {
    !w.finished && p.tracking ==> DecAllAllowed(w.stat, ChannelsOf(p, c))
  }

  /** Where a counter assertion would fail the model leaves the counters alone;
      `StrandInvariant` shows that this is never the case. */
  function AfterRemove(p: Setup, w: World, c: Id): World
    requires c < |p.cfgs|
  {
    if w.finished then w
    else World(w.conns, w.registry.Erase(c, p.cfgs[c].name), false,
               if p.tracking && DecAllAllowed(w.stat, ChannelsOf(p, c)) then DecAll(w.stat, ChannelsOf(p, c)) else w.stat,
               w.fired + [Closed(c)])
  }

  function Perform(p: Setup, w: World, c: Id, ops: seq<RegistryOp>): (r: World)
    requires c < |p.cfgs|
    ensures r.conns == w.conns && r.finished == w.finished && w.fired <= r.fired
  {
    if ops == [] then w
    else
      var before := Perform(p, w, c, ops[..|ops| - 1]);
      if ops[|ops| - 1].Insert? then AfterInsert(p, before, c) else AfterRemove(p, before, c)
  }

  /** Connection `c` moves to `s`; the registry calls its handler made take effect. */
  function Update(p: Setup, w: World, c: Id, s: Conn): (r: World)
    requires c < |w.conns| == |p.cfgs| && w.conns[c].registry <= s.registry
    ensures r.conns == w.conns[c := s] && r.finished == w.finished && w.fired <= r.fired
  {
    Perform(p, World(w.conns[c := s], w.registry, w.finished, w.stat, w.fired), c,
            s.registry[|w.conns[c].registry|..])
  }

  function SendTo(p: Setup, w: World, c: Id, entry: Entry, now: int): (r: World)
    requires c < |w.conns| == |p.cfgs|
    ensures |r.conns| == |w.conns| && r.finished == w.finished && w.fired <= r.fired
  {
    Update(p, w, c, w.conns[c].OnSend(p.cfgs[c], entry, now))
  }

  function CloseOne(p: Setup, w: World, c: Id): (r: World)
    requires c < |w.conns| == |p.cfgs|
    ensures |r.conns| == |w.conns| && r.finished == w.finished && w.fired <= r.fired
  {
    Update(p, w, c, w.conns[c].Cleanup(p.cfgs[c]))
  }

  predicate Known(p: Setup, ids: seq<Id>) {
    forall k :: 0 <= k < |ids| ==> ids[k] < |p.cfgs|
  }

  /** The connections among `ids` that take the message; `passing` are those for which the
      attached filter answers yes. */
  function Targets(p: Setup, ids: seq<Id>, m: Mail, passing: set<Id>): (r: seq<Id>)
    requires Known(p, ids)
    ensures Known(p, r)
  {
    if ids == [] then []
    else
      var last := ids[|ids| - 1];
      Targets(p, ids[..|ids| - 1], m, passing) +
      (if p.cfgs[last].formatters.Allows(m, last in passing) then [last] else [])
  }

  function SendAll(p: Setup, w: World, ids: seq<Id>, m: Mail, now: int): (r: World)
    requires |w.conns| == |p.cfgs| && Known(p, ids)
    ensures |r.conns| == |w.conns| && r.finished == w.finished && w.fired <= r.fired
  {
    if ids == [] then w
    else SendTo(p, SendAll(p, w, ids[..|ids| - 1], m, now), ids[|ids| - 1], m.For(ids[|ids| - 1]), now)
  }

  /** The list is complete before the first `send`, which may clean up and deregister. */
  function AfterSendByName(p: Setup, w: World, to: string, m: Mail, passing: set<Id>, now: int): (r: World)
    requires |w.conns| == |p.cfgs| && Known(p, w.registry.Named(to))
    ensures |r.conns| == |w.conns| && r.finished == w.finished && w.fired <= r.fired
  {
    if w.finished then w
    else if w.registry.Named(to) == []
    then World(w.conns, w.registry, w.finished, w.stat, w.fired + [Disconnected(to)])
    else SendAll(p, w, Targets(p, w.registry.Named(to), m, passing), m, now)
  }

  function AfterSendById(p: Setup, w: World, c: Id, m: Mail, passing: set<Id>, now: int): (r: World)
    requires |w.conns| == |p.cfgs| && forall k <- w.registry.byId :: k < |p.cfgs|
    ensures |r.conns| == |w.conns| && r.finished == w.finished && w.fired <= r.fired
  {
    if w.finished || c !in w.registry.byId then w
    else SendAll(p, w, Targets(p, [c], m, passing), m, now)
  }

  function AfterOpenFailed(p: Setup, w: World, to: string, c: Id): (r: World)
    requires |w.conns| == |p.cfgs| && forall k <- w.registry.byId :: k < |p.cfgs|
    ensures |r.conns| == |w.conns| && r.finished == w.finished && w.fired <= r.fired
  {
    if w.finished || c !in w.registry.byId || p.cfgs[c].name != to then w else CloseOne(p, w, c)
  }

  function FinishAll(p: Setup, w: World, order: seq<Id>, now: int): (r: World)
    requires |w.conns| == |p.cfgs| && Known(p, order)
    ensures |r.conns| == |w.conns| && r.finished == w.finished && w.fired <= r.fired
  {
    if order == [] then w
    else
      var before := FinishAll(p, w, order[..|order| - 1], now);
      CloseOne(p, SendTo(p, before, order[|order| - 1], Finish, now), order[|order| - 1])
  }

  function AfterFinish(p: Setup, w: World, order: seq<Id>, now: int): (r: World)
    requires |w.conns| == |p.cfgs| && Known(p, order)
    ensures |r.conns| == |w.conns| && r.finished && w.fired <= r.fired
  {
    if w.finished then w
    else FinishAll(p, World(w.conns, Registry({}, map[]), true, w.stat, w.fired), order, now)
  }

  /** One strand step. `Own` is a completion or hand-back of a single connection; everything
      else comes through the manager. `order` is the iteration order of the id index. */
  datatype Event =
    | Own(conn: Id, event: ConnectionSpec.Event)
    | SendByName(to: string, m: Mail, passing: set<Id>, now: int)
    | SendById(conn: Id, m: Mail, passing: set<Id>, now: int)
    | OpenFailed(to: string, conn: Id)
    | FinishManager(order: seq<Id>, now: int)

  predicate Enabled(p: Setup, w: World, e: Event)
    requires |w.conns| == |p.cfgs|
  {
    match e
    case Own(c, ce) =>
      c < |w.conns| && !ce.Send? && !ce.Close? && w.conns[c].Enabled(ce)
      && (ce.Handled? ==> ce.accepted == !w.finished)
    case FinishManager(order, _) => multiset(order) == multiset(w.registry.byId)
    case _ => true
  }

  ghost predicate WellFormed(p: Setup, w: World) {
    && |w.conns| == |p.cfgs|
    && (forall c <- w.registry.byId :: c < |p.cfgs|)
    && (forall name :: Known(p, w.registry.Named(name)))
  }

  ghost function Step(p: Setup, w: World, e: Event): (r: World)
    requires WellFormed(p, w) && Enabled(p, w, e)
    ensures |r.conns| == |w.conns| && w.fired <= r.fired
  {
    match e
    case Own(c, ce) => Update(p, w, c, w.conns[c].Step(p.cfgs[c], ce))
    case SendByName(to, m, passing, now) => AfterSendByName(p, w, to, m, passing, now)
    case SendById(c, m, passing, now) => AfterSendById(p, w, c, m, passing, now)
    case OpenFailed(to, c) => AfterOpenFailed(p, w, to, c)
    case FinishManager(order, now) =>
      assert forall k :: 0 <= k < |order| ==> order[k] in multiset(order);
      AfterFinish(p, w, order, now)
  }
}
