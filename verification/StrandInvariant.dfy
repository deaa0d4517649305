/** What every strand step keeps: registry, indexes, counters and `managed_` agree. */
module StrandInvariant {
  import opened Messages
  import opened ConnectionSpec
  import opened ConnectionInvariant
  import opened ChannelsStat
  import opened StrandSpec

  ghost predicate Sane(p: Setup) {
    forall c :: 0 <= c < |p.cfgs| ==> p.cfgs[c].formatters.Valid()
  }

  /** Both indexes hold the same connections, each once. */
  ghost predicate IndexesAgree(p: Setup, r: Registry) {
    && (forall c <- r.byId :: c < |p.cfgs|)
    && (forall name, c :: c in r.Named(name) <==> c in r.byId && p.cfgs[c].name == name)
    && (forall name :: Distinct(r.Named(name)))
  }

  function Subscribers(p: Setup, byId: set<Id>, id: ChannelId): set<Id> {
    set c | c in byId && c < |p.cfgs| && id in ChannelsOf(p, c)
  }

  /** Every counter is the number of registered subscribers of its channel. */
  ghost predicate CountersExact(p: Setup, byId: set<Id>, stat: Stat) {
    && Tidy(stat)
    && (forall id: ChannelId :: id.name != "" ==> Count(stat, id) == |Subscribers(p, byId, id)|)
  }

  /** What the listener was told about `c`, as registry operations. */
  function ToldOf(fired: seq<Fired>, c: Id): seq<RegistryOp> {
    if fired == [] then []
    else
      var last := fired[|fired| - 1];
      ToldOf(fired[..|fired| - 1], c) +
      (if last == Opened(c) then [Insert] else if last == Closed(c) then [Remove] else [])
  }

  ghost predicate FiredKnown(p: Setup, fired: seq<Fired>) {
    forall k :: 0 <= k < |fired| ==> fired[k].Disconnected? || fired[k].conn < |p.cfgs|
  }

  ghost predicate ManagerInv(p: Setup, w: World) {
    && |w.conns| == |p.cfgs|
    && FiredKnown(p, w.fired)
    && IndexesAgree(p, w.registry)
    && (w.finished ==> w.registry.byId == {})
    && (!w.finished ==> forall c :: c in w.registry.byId <==> ToldOf(w.fired, c) == [Insert])
    && (!w.finished && p.tracking ==> CountersExact(p, w.registry.byId, w.stat))
  }

  /** Each connection's own record of its registration is what the listener was told; after
      finish the listener is told no more. */
  ghost predicate RecordsAgree(p: Setup, w: World) {
    && |w.conns| == |p.cfgs|
    && (forall c :: 0 <= c < |w.conns| ==> Inv(p.cfgs[c], w.conns[c]))
    && (forall c :: 0 <= c < |w.conns| ==>
          if w.finished then ToldOf(w.fired, c) <= w.conns[c].registry
          else ToldOf(w.fired, c) == w.conns[c].registry)
  }

  ghost predicate StrandInv(p: Setup, w: World) {
    && Sane(p) && ManagerInv(p, w) && RecordsAgree(p, w)
    && (w.finished ==> forall c :: 0 <= c < |w.conns| ==> !w.conns[c].managed)
  }

  lemma ToldOne(fired: seq<Fired>, f: Fired, c: Id)
    ensures ToldOf(fired + [f], c) ==
            ToldOf(fired, c) + if f == Opened(c) then [Insert] else if f == Closed(c) then [Remove] else []
  {
    assert (fired + [f])[..|fired|] == fired;
  }

  lemma ToldAll(fired: seq<Fired>, f: Fired)
    ensures forall c ::
      (ToldOf(fired + [f], c) ==
       ToldOf(fired, c) + if f == Opened(c) then [Insert] else if f == Closed(c) then [Remove] else [])
  {
    forall c ensures ToldOf(fired + [f], c) ==
            ToldOf(fired, c) + if f == Opened(c) then [Insert] else if f == Closed(c) then [Remove] else []
    {
      ToldOne(fired, f, c);
    }
  }

  lemma {:induction false} WithoutDistinct<T(!new)>(s: seq<T>, x: T)
    requires Distinct(s)
    ensures Distinct(Without(s, x)) && forall y :: y in Without(s, x) <==> y in s && y != x
  {
    if s != [] {
      assert s == [s[0]] + s[1..];
      assert s[0] !in s[1..];
      WithoutDistinct(s[1..], x);
    }
  }

  lemma AddKeeps(p: Setup, r: Registry, c: Id)
    requires IndexesAgree(p, r) && c < |p.cfgs| && c !in r.byId
    ensures IndexesAgree(p, r.Add(c, p.cfgs[c].name))
  {
    var n := p.cfgs[c].name;
    assert c !in r.Named(n);
    var added := r.Add(c, n);
    forall name
      ensures Distinct(added.Named(name))
      ensures forall d :: d in added.Named(name) <==> d in added.byId && p.cfgs[d].name == name
    {
      assert added.Named(name) == if name == n then r.Named(n) + [c] else r.Named(name);
    }
  }

  lemma EraseKeeps(p: Setup, r: Registry, c: Id)
    requires IndexesAgree(p, r) && c < |p.cfgs|
    ensures IndexesAgree(p, r.Erase(c, p.cfgs[c].name))
  {
    var n := p.cfgs[c].name;
    WithoutDistinct(r.Named(n), c);
    var erased := r.Erase(c, n);
    forall name
      ensures Distinct(erased.Named(name))
      ensures forall d :: d in erased.Named(name) <==> d in erased.byId && p.cfgs[d].name == name
    {
      assert erased.Named(name) == if name == n then Without(r.Named(n), c) else r.Named(name);
    }
  }

  lemma InsertKeeps(p: Setup, w: World, c: Id)
    requires Sane(p) && ManagerInv(p, w) && c < |p.cfgs| && !w.finished && ToldOf(w.fired, c) == []
    ensures ManagerInv(p, AfterInsert(p, w, c))
  {
    assert c !in w.registry.byId;
    InsertTold(w.fired, w.registry.byId, c);
    AddKeeps(p, w.registry, c);
    if p.tracking {
      InsertCounts(p, w.registry.byId, w.stat, c);
    }
  }

  lemma InsertTold(fired: seq<Fired>, byId: set<Id>, c: Id)
    requires ToldOf(fired, c) == [] && forall d :: d in byId <==> ToldOf(fired, d) == [Insert]
    ensures forall d :: d in byId + {c} <==> ToldOf(fired + [Opened(c)], d) == [Insert]
  {
    ToldAll(fired, Opened(c));
  }

  lemma SubscribersWith(p: Setup, byId: set<Id>, c: Id, id: ChannelId)
    requires c < |p.cfgs| && c !in byId
    ensures |Subscribers(p, byId + {c}, id)| == |Subscribers(p, byId, id)| + if id in ChannelsOf(p, c) then 1 else 0
  {
    assert Subscribers(p, byId + {c}, id) == Subscribers(p, byId, id) + if id in ChannelsOf(p, c) then {c} else {};
  }

  lemma InsertCounts(p: Setup, byId: set<Id>, stat: Stat, c: Id)
    requires Sane(p) && c < |p.cfgs| && c !in byId && CountersExact(p, byId, stat)
    ensures CountersExact(p, byId + {c}, IncAll(stat, ChannelsOf(p, c)))
  {
    IncAllCounts(stat, ChannelsOf(p, c));
    forall id: ChannelId | id.name != ""
      ensures Count(IncAll(stat, ChannelsOf(p, c)), id) == |Subscribers(p, byId + {c}, id)|
    {
      SubscribersWith(p, byId, c, id);
    }
  }

  lemma RemoveCounts(p: Setup, byId: set<Id>, stat: Stat, c: Id)
    requires Sane(p) && c < |p.cfgs| && c in byId && CountersExact(p, byId, stat)
    ensures DecAllAllowed(stat, ChannelsOf(p, c))
    ensures CountersExact(p, byId - {c}, DecAll(stat, ChannelsOf(p, c)))
  {
    var ids := ChannelsOf(p, c);
    forall id <- ids | id.name != "" ensures Count(stat, id) > 0 {
      assert c in Subscribers(p, byId, id);
    }
    DecAllCounts(stat, ids);
    assert byId == (byId - {c}) + {c};
    forall id: ChannelId | id.name != ""
      ensures Count(DecAll(stat, ids), id) == |Subscribers(p, byId - {c}, id)|
    {
      SubscribersWith(p, byId - {c}, c, id);
    }
  }

  lemma RemoveKeeps(p: Setup, w: World, c: Id)
    requires Sane(p) && ManagerInv(p, w) && c < |p.cfgs| && !w.finished && ToldOf(w.fired, c) == [Insert]
    ensures RemovalSafe(p, w, c) && ManagerInv(p, AfterRemove(p, w, c))
  {
    ToldAll(w.fired, Closed(c));
    EraseKeeps(p, w.registry, c);
    if p.tracking {
      RemoveCounts(p, w.registry.byId, w.stat, c);
    }
  }

  // ---- One connection moves ----

  /** What a handler of a connection may have asked of the registry, given what it had asked before. */
  ghost predicate Follows(finished: bool, before: seq<RegistryOp>, after: seq<RegistryOp>) {
    && before <= after <= [Insert, Remove]
    && (finished ==> (before == [] ==> after == []))
  }

  /** The second of the two calls is the removal. */
  lemma NextCall(done: seq<RegistryOp>, op: RegistryOp)
    requires done + [op] <= [Insert, Remove]
    ensures done == if op.Insert? then [] else [Insert]
  {
    assert op == [Insert, Remove][|done|];
    assert done == [Insert, Remove][..|done|];
  }

  function AfterCall(p: Setup, w: World, c: Id, op: RegistryOp): World
    requires c < |p.cfgs|
  {
    if op.Insert? then AfterInsert(p, w, c) else AfterRemove(p, w, c)
  }

  lemma CallTold(p: Setup, w: World, c: Id, op: RegistryOp)
    requires c < |p.cfgs| && !w.finished && (op.Insert? ==> c !in w.registry.byId)
    ensures ToldOf(AfterCall(p, w, c, op).fired, c) == ToldOf(w.fired, c) + [op]
    ensures forall d :: d != c ==> ToldOf(AfterCall(p, w, c, op).fired, d) == ToldOf(w.fired, d)
  {
    ToldAll(w.fired, if op.Insert? then Opened(c) else Closed(c));
  }

  /** One registry call of `c`, which has made the calls `done` before. */
  lemma CallKeeps(p: Setup, w: World, c: Id, done: seq<RegistryOp>, op: RegistryOp)
    requires Sane(p) && ManagerInv(p, w) && c < |p.cfgs| && done + [op] <= [Insert, Remove]
    requires !w.finished && ToldOf(w.fired, c) == done
    ensures var r := AfterCall(p, w, c, op);
      && ManagerInv(p, r) && !r.finished && ToldOf(r.fired, c) == done + [op]
      && (forall d :: d != c ==> ToldOf(r.fired, d) == ToldOf(w.fired, d))
  {
    NextCall(done, op);
    if op.Insert? {
      InsertKeeps(p, w, c);
    } else {
      RemoveKeeps(p, w, c);
    }
    CallTold(p, w, c, op);
  }

  lemma FinishedIgnores(p: Setup, w: World, c: Id, ops: seq<RegistryOp>)
    requires c < |p.cfgs| && w.finished
    ensures Perform(p, w, c, ops) == w
  {
  }

  lemma {:induction false} PerformKeeps(p: Setup, w: World, c: Id, done: seq<RegistryOp>, ops: seq<RegistryOp>)
    requires Sane(p) && ManagerInv(p, w) && c < |p.cfgs| && done + ops <= [Insert, Remove]
    requires !w.finished && ToldOf(w.fired, c) == done
    ensures var r := Perform(p, w, c, ops);
      && ManagerInv(p, r) && ToldOf(r.fired, c) == done + ops
      && (forall d :: d != c ==> ToldOf(r.fired, d) == ToldOf(w.fired, d))
  {
    if ops == [] {
      assert done + ops == done;
    } else {
      var init, last := ops[..|ops| - 1], ops[|ops| - 1];
      assert done + ops == (done + init) + [last];
      PerformKeeps(p, w, c, done, init);
      CallKeeps(p, Perform(p, w, c, init), c, done + init, last);
    }
  }

  lemma RecordsKeep(p: Setup, w: World, c: Id, s: Conn, r: World)
    requires RecordsAgree(p, w) && c < |w.conns| && Inv(p.cfgs[c], s)
    requires r.conns == w.conns[c := s] && r.finished == w.finished
    requires forall d :: d != c ==> ToldOf(r.fired, d) == ToldOf(w.fired, d)
    requires if w.finished then ToldOf(r.fired, c) <= s.registry else ToldOf(r.fired, c) == s.registry
    ensures RecordsAgree(p, r)
  {
  }

  lemma UpdateKeeps(p: Setup, w: World, c: Id, s: Conn)
    requires Sane(p) && ManagerInv(p, w) && RecordsAgree(p, w) && c < |p.cfgs|
    requires Inv(p.cfgs[c], s) && Follows(w.finished, w.conns[c].registry, s.registry)
    ensures ManagerInv(p, Update(p, w, c, s)) && RecordsAgree(p, Update(p, w, c, s))
    ensures w.finished ==> Update(p, w, c, s).registry == w.registry && Update(p, w, c, s).fired == w.fired
  {
    var done := w.conns[c].registry;
    var ops := s.registry[|done|..];
    assert done + ops == s.registry;
    var moved := World(w.conns[c := s], w.registry, w.finished, w.stat, w.fired);
    if w.finished {
      FinishedIgnores(p, moved, c, ops);
    } else {
      PerformKeeps(p, moved, c, done, ops);
    }
    RecordsKeep(p, w, c, s, Update(p, w, c, s));
  }

  lemma ConnFollows(cfg: Config, s: Conn, t: Conn, finished: bool)
    requires Inv(cfg, s) && Inv(cfg, t)
    requires s.AtMostRemoved(t) || (!finished && s.(registry := s.registry + [Insert]).AtMostRemoved(t))
    ensures Follows(finished, s.registry, t.registry)
  {
    var before, after := s.registry, t.registry;
    if after != before {
      assert before <= after;
      assert after[|before|] == [Insert, Remove][|before|];
    }
  }

  lemma SendToKeeps(p: Setup, w: World, c: Id, entry: Entry, now: int)
    requires Sane(p) && ManagerInv(p, w) && RecordsAgree(p, w) && c < |p.cfgs|
    ensures var r := SendTo(p, w, c, entry, now);
      && ManagerInv(p, r) && RecordsAgree(p, r)
      && (w.finished ==> r.registry == w.registry && r.fired == w.fired)
  {
    OnSendKeeps(p.cfgs[c], w.conns[c], entry, now);
    var t := w.conns[c].OnSend(p.cfgs[c], entry, now);
    ConnFollows(p.cfgs[c], w.conns[c], t, w.finished);
    UpdateKeeps(p, w, c, t);
  }

  lemma CloseOneKeeps(p: Setup, w: World, c: Id)
    requires Sane(p) && ManagerInv(p, w) && RecordsAgree(p, w) && c < |p.cfgs|
    ensures var r := CloseOne(p, w, c);
      && ManagerInv(p, r) && RecordsAgree(p, r) && !r.conns[c].managed
      && (w.finished ==> r.registry == w.registry && r.fired == w.fired)
  {
    CleanupKeeps(p.cfgs[c], w.conns[c]);
    var t := w.conns[c].Cleanup(p.cfgs[c]);
    ConnFollows(p.cfgs[c], w.conns[c], t, w.finished);
    UpdateKeeps(p, w, c, t);
  }

  lemma {:induction false} SendAllKeeps(p: Setup, w: World, ids: seq<Id>, m: Mail, now: int)
    requires StrandInv(p, w) && !w.finished && Known(p, ids)
    ensures StrandInv(p, SendAll(p, w, ids, m, now))
  {
    if ids != [] {
      SendAllKeeps(p, w, ids[..|ids| - 1], m, now);
      SendToKeeps(p, SendAll(p, w, ids[..|ids| - 1], m, now), ids[|ids| - 1], m.For(ids[|ids| - 1]), now);
    }
  }

  lemma {:induction false} FinishAllKeeps(p: Setup, w: World, order: seq<Id>, now: int)
    requires Sane(p) && ManagerInv(p, w) && RecordsAgree(p, w) && w.finished && Known(p, order)
    ensures var r := FinishAll(p, w, order, now);
      && ManagerInv(p, r) && RecordsAgree(p, r) && r.finished
      && (forall c :: 0 <= c < |w.conns| && r.conns[c].managed ==> w.conns[c].managed && c !in order)
  {
    if order != [] {
      var init, last := order[..|order| - 1], order[|order| - 1];
      assert order == init + [last];
      FinishAllKeeps(p, w, init, now);
      var before, r := FinishAll(p, w, init, now), FinishAll(p, w, order, now);
      FinishOneKeeps(p, before, last, now);
      forall c | 0 <= c < |w.conns| && r.conns[c].managed ensures w.conns[c].managed && c !in order {
        assert c != last && r.conns[c] == before.conns[c];
      }
    }
  }

  lemma FinishOneKeeps(p: Setup, w: World, c: Id, now: int)
    requires Sane(p) && ManagerInv(p, w) && RecordsAgree(p, w) && w.finished && c < |p.cfgs|
    ensures var r := CloseOne(p, SendTo(p, w, c, Finish, now), c);
      && ManagerInv(p, r) && RecordsAgree(p, r) && !r.conns[c].managed
      && (forall d :: 0 <= d < |w.conns| && d != c ==> r.conns[d] == w.conns[d])
  {
    SendToKeeps(p, w, c, Finish, now);
    CloseOneKeeps(p, SendTo(p, w, c, Finish, now), c);
  }

  /** `managed_` holds exactly for the registered connections, as long as the manager runs. */
  lemma ManagedIsRegistered(p: Setup, w: World)
    requires StrandInv(p, w) && !w.finished
    ensures forall c :: 0 <= c < |w.conns| ==> (w.conns[c].managed <==> c in w.registry.byId)
  {
  }

  lemma OwnKeeps(p: Setup, w: World, c: Id, ce: ConnectionSpec.Event)
    requires StrandInv(p, w) && Enabled(p, w, Own(c, ce))
    ensures StrandInv(p, Update(p, w, c, w.conns[c].Step(p.cfgs[c], ce)))
  {
    var t := w.conns[c].Step(p.cfgs[c], ce);
    ConnectionInvariant.StepKeeps(p.cfgs[c], w.conns[c], ce);
    ConnFollows(p.cfgs[c], w.conns[c], t, w.finished);
    UpdateKeeps(p, w, c, t);
  }

  lemma SendByNameKeeps(p: Setup, w: World, to: string, m: Mail, passing: set<Id>, now: int)
    requires StrandInv(p, w) && WellFormed(p, w)
    ensures StrandInv(p, AfterSendByName(p, w, to, m, passing, now))
  {
    if !w.finished {
      if w.registry.Named(to) != [] {
        SendAllKeeps(p, w, Targets(p, w.registry.Named(to), m, passing), m, now);
      } else {
        LostKeeps(p, w, to);
      }
    }
  }

  lemma LostKeeps(p: Setup, w: World, to: string)
    requires StrandInv(p, w) && !w.finished
    ensures StrandInv(p, World(w.conns, w.registry, w.finished, w.stat, w.fired + [Disconnected(to)]))
  {
    ToldAll(w.fired, Disconnected(to));
  }

  lemma IndexesKnown(p: Setup, r: Registry)
    requires IndexesAgree(p, r)
    ensures forall name :: Known(p, r.Named(name))
  {
    forall name, k | 0 <= k < |r.Named(name)| ensures r.Named(name)[k] < |p.cfgs| {
      assert r.Named(name)[k] in r.byId;
    }
  }

  lemma StepKeeps(p: Setup, w: World, e: StrandSpec.Event)
    requires StrandInv(p, w) && WellFormed(p, w) && Enabled(p, w, e)
    ensures StrandInv(p, Step(p, w, e)) && WellFormed(p, Step(p, w, e))
  {
    match e {
      case Own(c, ce) => OwnKeeps(p, w, c, ce);
      case SendByName(to, m, passing, now) => SendByNameKeeps(p, w, to, m, passing, now);
      case SendById(c, m, passing, now) =>
        if !w.finished && c in w.registry.byId {
          SendAllKeeps(p, w, Targets(p, [c], m, passing), m, now);
        }
      case OpenFailed(to, c) =>
        if !w.finished && c in w.registry.byId && p.cfgs[c].name == to {
          CloseOneKeeps(p, w, c);
        }
      case FinishManager(order, now) =>
        assert forall k :: 0 <= k < |order| ==> order[k] in multiset(order);
        FinishKeeps(p, w, order, now);
    }
    IndexesKnown(p, Step(p, w, e).registry);
  }

  lemma EmptiedKeeps(p: Setup, w: World)
    requires StrandInv(p, w) && !w.finished
    ensures var emptied := World(w.conns, Registry({}, map[]), true, w.stat, w.fired);
      ManagerInv(p, emptied) && RecordsAgree(p, emptied)
  {
  }

  lemma FinishKeeps(p: Setup, w: World, order: seq<Id>, now: int)
    requires StrandInv(p, w) && WellFormed(p, w) && Known(p, order) && multiset(order) == multiset(w.registry.byId)
    ensures StrandInv(p, AfterFinish(p, w, order, now))
  {
    if !w.finished {
      var emptied := World(w.conns, Registry({}, map[]), true, w.stat, w.fired);
      EmptiedKeeps(p, w);
      FinishAllKeeps(p, emptied, order, now);
      forall c | 0 <= c < |w.conns| && w.conns[c].managed ensures c in order {
        ManagedIsRegistered(p, w);
        assert c in multiset(order);
      }
    }
  }
}
