/** Whole runs of the strand, and what a send delivers. */
module StrandRuns {
  import opened Messages
  import opened ConnectionSpec
  import opened ConnectionInvariant
  import opened ChannelsStat
  import opened StrandSpec
  import opened StrandInvariant

  lemma StartKeeps(p: Setup, now: int)
    requires Sane(p)
    ensures StrandInv(p, StrandSpec.Start(p, now)) && WellFormed(p, StrandSpec.Start(p, now))
    ensures Routable(p, StrandSpec.Start(p, now))
  {
    var w := StrandSpec.Start(p, now);
    forall c | 0 <= c < |w.conns| ensures Inv(p.cfgs[c], w.conns[c]) {
      ConnectionInvariant.StartKeeps(p.cfgs[c], now);
    }
    forall id: ChannelId ensures Subscribers(p, {}, id) == {} {
    }
  }

  ghost predicate Possible(p: Setup, w: World, events: seq<StrandSpec.Event>)
    decreases |events|
  {
    WellFormed(p, w) &&
    (events == [] || (StrandSpec.Enabled(p, w, events[0]) && Possible(p, StrandSpec.Step(p, w, events[0]), events[1..])))
  }

  ghost function Run(p: Setup, w: World, events: seq<StrandSpec.Event>): (r: World)
    requires Possible(p, w, events)
    ensures |r.conns| == |w.conns| == |p.cfgs|
    decreases |events|
  {
    if events == [] then w else Run(p, StrandSpec.Step(p, w, events[0]), events[1..])
  }

  lemma {:induction false} RunKeeps(p: Setup, w: World, events: seq<StrandSpec.Event>)
    requires StrandInv(p, w) && Routable(p, w) && Possible(p, w, events)
    ensures StrandInv(p, Run(p, w, events)) && Routable(p, Run(p, w, events))
    decreases |events|
  {
    if events != [] {
      StrandInvariant.StepKeeps(p, w, events[0]);
      StepRoutes(p, w, events[0]);
      RunKeeps(p, StrandSpec.Step(p, w, events[0]), events[1..]);
    }
  }

  /** In every run: while the manager works, `managed_` marks exactly the registered
      connections, both indexes hold them, every counter is exact and none is zero; once it has
      finished, the registry is empty, nothing is managed, and inserting is refused. The
      listener is told of each connection's insertion at most once, and of its removal at most
      once and after that. */
  lemma RegistryConsistent(p: Setup, now: int, events: seq<StrandSpec.Event>)
    requires Sane(p) && Possible(p, StrandSpec.Start(p, now), events)
    ensures var w := Run(p, StrandSpec.Start(p, now), events);
      && IndexesAgree(p, w.registry)
      && (!w.finished ==> forall c :: 0 <= c < |w.conns| ==> (w.conns[c].managed <==> c in w.registry.byId))
      && (!w.finished && p.tracking ==> CountersExact(p, w.registry.byId, w.stat))
      && (w.finished ==> w.registry.byId == {} && forall c :: 0 <= c < |w.conns| ==>
            !w.conns[c].managed && AfterInsert(p, w, c) == w)
      && (forall c :: 0 <= c < |w.conns| ==> ToldOf(w.fired, c) <= [Insert, Remove])
  {
    StartKeeps(p, now);
    RunKeeps(p, StrandSpec.Start(p, now), events);
    var w := Run(p, StrandSpec.Start(p, now), events);
    if !w.finished { ManagedIsRegistered(p, w); }
    forall c | 0 <= c < |w.conns| ensures ToldOf(w.fired, c) <= [Insert, Remove] {
      assert ToldOf(w.fired, c) <= w.conns[c].registry;
      assert w.conns[c].registry <= [Insert, Remove];
    }
  }

  /** Whenever a registered connection leaves, no counter assertion fails. */
  lemma RemovalIsSafe(p: Setup, w: World, c: Id)
    requires StrandInv(p, w) && c in w.registry.byId
    ensures RemovalSafe(p, w, c)
  {
    RemoveKeeps(p, w, c);
  }

  // ---- Delivery ----

  /** Passes the filter and, if it has subscribed to channels, to that of the message. */
  predicate Willing(p: Setup, c: Id, m: Mail, passing: set<Id>)
    requires c < |p.cfgs|
  {
    && c in passing
    && (p.cfgs[c].formatters.Channels? ==> m.channel != ChannelId("", "") && m.channel in ChannelsOf(p, c))
  }

  lemma {:induction false} TargetsExact(p: Setup, ids: seq<Id>, m: Mail, passing: set<Id>)
    requires Known(p, ids) && Distinct(ids)
    ensures Distinct(Targets(p, ids, m, passing))
    ensures forall c :: c in Targets(p, ids, m, passing) <==> c in ids && Willing(p, c, m, passing)
  {
    if ids != [] {
      var init, last := ids[..|ids| - 1], ids[|ids| - 1];
      assert ids == init + [last];
      assert last !in init;
      TargetsExact(p, init, m, passing);
    }
  }

  /** From `w` to `r` each connection in `ids` got the message once, and nobody else anything. */
  ghost predicate Got(w: World, r: World, ids: seq<Id>, m: Mail) {
    && |r.conns| == |w.conns|
    && (forall c :: 0 <= c < |w.conns| ==> r.conns[c].sent == w.conns[c].sent + if c in ids then [m.For(c)] else [])
  }

  lemma GotOneMore(w: World, before: World, r: World, ids: seq<Id>, c: Id, m: Mail)
    requires Got(w, before, ids, m) && c !in ids && |r.conns| == |w.conns|
    requires forall d :: 0 <= d < |w.conns| ==>
      r.conns[d].sent == before.conns[d].sent + if d == c then [m.For(c)] else []
    ensures Got(w, r, ids + [c], m)
  {
  }

  lemma {:induction false} SendAllDelivers(p: Setup, w: World, ids: seq<Id>, m: Mail, now: int)
    requires |w.conns| == |p.cfgs| && Known(p, ids) && Distinct(ids)
    ensures Got(w, SendAll(p, w, ids, m, now), ids, m)
  {
    if ids != [] {
      var init, last := ids[..|ids| - 1], ids[|ids| - 1];
      assert ids == init + [last];
      assert last !in init;
      var before := SendAll(p, w, init, m, now);
      SendAllDelivers(p, w, init, m, now);
      SendToDelivers(p, before, last, m.For(last), now);
      GotOneMore(w, before, SendTo(p, before, last, m.For(last), now), init, last, m);
    }
  }

  lemma SendToDelivers(p: Setup, w: World, c: Id, entry: Entry, now: int)
    requires |w.conns| == |p.cfgs| && c < |p.cfgs|
    ensures var r := SendTo(p, w, c, entry, now);
      forall d :: 0 <= d < |w.conns| ==> r.conns[d].sent == w.conns[d].sent + if d == c then [entry] else []
  {
    assert SendTo(p, w, c, entry, now).conns == w.conns[c := w.conns[c].OnSend(p.cfgs[c], entry, now)];
  }

  /** Registered under `to` when the call starts, and willing to take the message. */
  predicate Addressed(p: Setup, w: World, c: Id, to: string, m: Mail, passing: set<Id>)
    requires |w.conns| == |p.cfgs|
  {
    c in w.registry.byId && c < |p.cfgs| && p.cfgs[c].name == to && Willing(p, c, m, passing)
  }

  /** A send by name reaches each addressed connection once and nobody else, although sends
      may deregister connections while the list is walked; `disconnected` fires exactly when
      nobody has the name. */
  lemma SendByNameDelivers(p: Setup, w: World, to: string, m: Mail, passing: set<Id>, now: int)
    requires StrandInv(p, w) && WellFormed(p, w) && !w.finished
    ensures var r := AfterSendByName(p, w, to, m, passing, now);
      && (forall c :: 0 <= c < |w.conns| ==>
            r.conns[c].sent == w.conns[c].sent + if Addressed(p, w, c, to, m, passing) then [m.For(c)] else [])
      && ((forall c <- w.registry.byId :: p.cfgs[c].name != to) ==> r.fired == w.fired + [Disconnected(to)])
      && ((exists c <- w.registry.byId :: p.cfgs[c].name == to) ==> DisconnectsOf(r.fired) == DisconnectsOf(w.fired))
  {
    var ids := w.registry.Named(to);
    var targets := Targets(p, ids, m, passing);
    TargetsExact(p, ids, m, passing);
    if ids == [] {
      assert forall c <- w.registry.byId :: p.cfgs[c].name == to ==> c in ids;
    } else {
      assert ids[0] in ids;
      SendAllDelivers(p, w, targets, m, now);
      SendAllConnected(p, w, targets, m, now);
    }
  }

  /** A send by identity reaches that connection if it is registered and willing, and nobody else. */
  lemma SendByIdDelivers(p: Setup, w: World, d: Id, m: Mail, passing: set<Id>, now: int)
    requires StrandInv(p, w) && WellFormed(p, w) && !w.finished
    ensures var r := AfterSendById(p, w, d, m, passing, now);
      && (forall c :: 0 <= c < |w.conns| ==>
            r.conns[c].sent == w.conns[c].sent +
              if c == d && c in w.registry.byId && Willing(p, c, m, passing) then [m.For(c)] else [])
      && DisconnectsOf(r.fired) == DisconnectsOf(w.fired)
  {
    if d in w.registry.byId {
      var targets := Targets(p, [d], m, passing);
      TargetsExact(p, [d], m, passing);
      SendAllDelivers(p, w, targets, m, now);
      SendAllConnected(p, w, targets, m, now);
    }
  }

  /** Who gets a message of a channel when everybody passes: of those with channels exactly the
      registered subscribers, the set whose size the counter of the channel is. */
  lemma SubscribersGet(p: Setup, w: World, to: string, m: Mail, passing: set<Id>)
    requires StrandInv(p, w) && !w.finished && p.tracking && w.registry.byId <= passing && m.channel.name != ""
    ensures Count(w.stat, m.channel) == |Subscribers(p, w.registry.byId, m.channel)|
    ensures forall c :: 0 <= c < |p.cfgs| && p.cfgs[c].formatters.Channels? ==>
      (Addressed(p, w, c, to, m, passing) <==>
       c in Subscribers(p, w.registry.byId, m.channel) && p.cfgs[c].name == to)
    ensures forall c :: 0 <= c < |p.cfgs| && !p.cfgs[c].formatters.Channels? ==>
      (Addressed(p, w, c, to, m, passing) <==> c in w.registry.byId && p.cfgs[c].name == to)
  {
  }

  /** The names reported as disconnected, in order. */
  function DisconnectsOf(fired: seq<Fired>): seq<string> {
    if fired == [] then []
    else
      var last := fired[|fired| - 1];
      DisconnectsOf(fired[..|fired| - 1]) + if last.Disconnected? then [last.name] else []
  }

  lemma {:induction false} PerformConnected(p: Setup, w: World, c: Id, ops: seq<RegistryOp>)
    requires c < |p.cfgs|
    ensures DisconnectsOf(Perform(p, w, c, ops).fired) == DisconnectsOf(w.fired)
  {
    if ops != [] {
      PerformConnected(p, w, c, ops[..|ops| - 1]);
      var v := Perform(p, w, c, ops[..|ops| - 1]);
      assert (v.fired + [Opened(c)])[..|v.fired|] == v.fired;
      assert (v.fired + [Closed(c)])[..|v.fired|] == v.fired;
    }
  }

  lemma {:induction false} SendAllConnected(p: Setup, w: World, ids: seq<Id>, m: Mail, now: int)
    requires |w.conns| == |p.cfgs| && Known(p, ids)
    ensures DisconnectsOf(SendAll(p, w, ids, m, now).fired) == DisconnectsOf(w.fired)
  {
    if ids != [] {
      var c := ids[|ids| - 1];
      SendAllConnected(p, w, ids[..|ids| - 1], m, now);
      var v := SendAll(p, w, ids[..|ids| - 1], m, now);
      var s := v.conns[c].OnSend(p.cfgs[c], m.For(c), now);
      PerformConnected(p, World(v.conns[c := s], v.registry, v.finished, v.stat, v.fired), c,
                       s.registry[|v.conns[c].registry|..]);
    }
  }

  // ---- Formatters ----

  /** Every message queued at a connection finds its channel there. */
  ghost predicate Routable(p: Setup, w: World) {
    && |w.conns| == |p.cfgs|
    && (forall c :: 0 <= c < |w.conns| ==> AllFind(p.cfgs[c].formatters, w.conns[c].sent))
  }

  ghost predicate AllFind(f: FormatterData, sent: seq<Entry>) {
    forall e <- sent :: e.Post? ==> f.FindsFormatter(e.message)
  }

  lemma {:induction false} SendAllRoutes(p: Setup, w: World, ids: seq<Id>, m: Mail, now: int)
    requires Routable(p, w) && Known(p, ids)
    requires forall c <- ids :: p.cfgs[c].formatters.FindsFormatter(m.For(c).message)
    ensures Routable(p, SendAll(p, w, ids, m, now))
  {
    if ids != [] {
      var init, last := ids[..|ids| - 1], ids[|ids| - 1];
      assert ids == init + [last];
      SendAllRoutes(p, w, init, m, now);
      var before := SendAll(p, w, init, m, now);
      assert SendTo(p, before, last, m.For(last), now).conns[last].sent == before.conns[last].sent + [m.For(last)];
    }
  }

  lemma {:induction false} FinishRoutes(p: Setup, w: World, order: seq<Id>, now: int)
    requires Routable(p, w) && Known(p, order)
    ensures Routable(p, FinishAll(p, w, order, now))
  {
    if order != [] {
      var init, last := order[..|order| - 1], order[|order| - 1];
      FinishRoutes(p, w, init, now);
      var before := FinishAll(p, w, init, now);
      var mid := SendTo(p, before, last, Finish, now);
      assert mid.conns[last].sent == before.conns[last].sent + [Finish];
      assert CloseOne(p, mid, last).conns[last].sent == mid.conns[last].sent;
    }
  }

  lemma OwnRoutes(p: Setup, w: World, c: Id, e: ConnectionSpec.Event)
    requires StrandInv(p, w) && WellFormed(p, w) && StrandSpec.Enabled(p, w, Own(c, e)) && Routable(p, w)
    ensures Routable(p, StrandSpec.Step(p, w, Own(c, e)))
  {
  }

  lemma TargetsRoute(p: Setup, w: World, ids: seq<Id>, m: Mail, passing: set<Id>, now: int)
    requires Routable(p, w) && Known(p, ids) && Distinct(ids)
    ensures Routable(p, SendAll(p, w, Targets(p, ids, m, passing), m, now))
  {
    TargetsExact(p, ids, m, passing);
    SendAllRoutes(p, w, Targets(p, ids, m, passing), m, now);
  }

  lemma StepRoutes(p: Setup, w: World, e: StrandSpec.Event)
    requires StrandInv(p, w) && WellFormed(p, w) && StrandSpec.Enabled(p, w, e) && Routable(p, w)
    ensures Routable(p, StrandSpec.Step(p, w, e))
  {
    match e
    case Own(c, ce) => OwnRoutes(p, w, c, ce);
    case SendByName(to, m, passing, now) =>
      if !w.finished && w.registry.Named(to) != [] { TargetsRoute(p, w, w.registry.Named(to), m, passing, now); }
    case SendById(c, m, passing, now) =>
      if !w.finished && c in w.registry.byId { TargetsRoute(p, w, [c], m, passing, now); }
    case OpenFailed(to, c) =>
    case FinishManager(order, now) =>
      assert forall k :: 0 <= k < |order| ==> order[k] in multiset(order);
      if !w.finished {
        FinishRoutes(p, World(w.conns, Registry({}, map[]), true, w.stat, w.fired), order, now);
      }
  }

  /** In every run the lookup of a queued message's formatter succeeds. */
  lemma FormatterFound(p: Setup, now: int, events: seq<StrandSpec.Event>, c: Id, e: Entry)
    requires Sane(p) && Possible(p, StrandSpec.Start(p, now), events) && c < |p.cfgs|
    requires e in Run(p, StrandSpec.Start(p, now), events).conns[c].messages && e.Post?
    ensures p.cfgs[c].formatters.FindsFormatter(e.message)
    ensures p.cfgs[c].formatters.Channels? ==>
      e.message.channel != ChannelId("", "") && e.message.channel in ChannelsOf(p, c)
  {
    StartKeeps(p, now);
    RunKeeps(p, StrandSpec.Start(p, now), events);
    var s := Run(p, StrandSpec.Start(p, now), events).conns[c];
    assert s.sent == s.popped + s.messages;
  }
}
