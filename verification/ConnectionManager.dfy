/** connection_manager as the object it is. The connections live in `conns`; `Deliver` and
    `Shut` stand for the calls conn->send and conn->close, which may call back and deregister. */
module ConnectionManager {
  import opened Messages
  import opened ConnectionSpec
  import opened ChannelsStat
  import opened StrandSpec
  import opened StrandInvariant
  import StrandRuns

  /** `Duplicate` stands for the exception "same connection". */
  datatype InsertResult = Inserted | Refused | Duplicate

  class Manager {
    const p: Setup

    var conns: seq<Conn>
    var byId: set<Id>
    var byName: map<string, seq<Id>>
    var finished: bool
    var stat: Stat
    var fired: seq<Fired>

    function View(): World
      reads this
    {
      World(conns, Registry(byId, byName), finished, stat, fired)
    }

    /** What every run of the strand keeps; it holds whenever no call is under way. */
    ghost predicate Valid()
      reads this
    {
      StrandInv(p, View()) && WellFormed(p, View())
    }

    constructor (p: Setup, now: int)
      requires Sane(p)
      ensures Valid() && this.p == p && View() == StrandSpec.Start(p, now)
    {
      this.p := p;
      conns := StrandSpec.Start(p, now).conns;
      byId, byName, finished, stat, fired := {}, map[], false, map[], [];
      StrandRuns.StartKeeps(p, now);
    }

    method Named(name: string) returns (ids: seq<Id>)
      ensures ids == View().registry.Named(name)
    {
      ids := if name in byName then byName[name] else [];
    }

    method CountIn(channels: seq<ChannelId>)
      modifies this`stat
      ensures stat == IncAll(old(stat), channels)
    {
      for k := 0 to |channels|
        invariant stat == IncAll(old(stat), channels[..k])
      {
        assert channels[..k + 1][..k] == channels[..k];
        stat := Inc(stat, channels[k]);
      }
      assert channels[..|channels|] == channels;
    }

    method CountOut(channels: seq<ChannelId>)
      requires DecAllAllowed(stat, channels)
      modifies this`stat
      ensures stat == DecAll(old(stat), channels)
    {
      for k := 0 to |channels|
        invariant DecAllAllowed(old(stat), channels[..k]) && stat == DecAll(old(stat), channels[..k])
      {
        DecAllPrefix(old(stat), channels, k + 1);
        assert channels[..k + 1][..k] == channels[..k];
        stat := Dec(stat, channels[k]);
      }
      assert channels[..|channels|] == channels;
    }

    method InsertConnection(c: Id) returns (r: InsertResult)
      requires c < |p.cfgs|
      modifies this`byId, this`byName, this`stat, this`fired
      ensures r == if old(finished) then Refused else if c in old(byId) then Duplicate else Inserted
      ensures View() == AfterInsert(p, old(View()), c)
    {
      if finished {
        return Refused;
      }
      if c in byId {
        return Duplicate;
      }
      var name := p.cfgs[c].name;
      var ids := Named(name);
      byId := byId + {c};
      byName := byName[name := ids + [c]];
      if p.tracking {
        CountIn(ChannelsOf(p, c));
      }
      fired := fired + [Opened(c)];
      return Inserted;
    }

    method RemoveConnection(c: Id)
      requires c < |p.cfgs| && RemovalSafe(p, View(), c)
      modifies this`byId, this`byName, this`stat, this`fired
      ensures View() == AfterRemove(p, old(View()), c)
    {
      if finished {
        return;
      }
      var name := p.cfgs[c].name;
      var ids := Named(name);
      byId := byId - {c};
      byName := byName[name := Without(ids, c)];
      if p.tracking {
        CountOut(ChannelsOf(p, c));
      }
      fired := fired + [Closed(c)];
    }

    /** One registry call that a handler of `c` makes after the calls `done`. */
    method Call(c: Id, ghost done: seq<RegistryOp>, op: RegistryOp)
      requires Sane(p) && ManagerInv(p, View()) && c < |p.cfgs| && done + [op] <= [Insert, Remove]
      requires finished || ToldOf(fired, c) == done
      modifies this`byId, this`byName, this`stat, this`fired
      ensures View() == if op.Insert? then AfterInsert(p, old(View()), c) else AfterRemove(p, old(View()), c)
      ensures ManagerInv(p, View()) && (finished || ToldOf(fired, c) == done + [op])
    {
      if finished {
        return;
      }
      NextCall(done, op);
      CallKeeps(p, View(), c, done, op);
      if op.Insert? {
        var r := InsertConnection(c);
      } else {
        RemoveKeeps(p, View(), c);
        RemoveConnection(c);
      }
    }

    method Serve(c: Id, ghost done: seq<RegistryOp>, ops: seq<RegistryOp>)
      requires Sane(p) && ManagerInv(p, View()) && c < |p.cfgs| && done + ops <= [Insert, Remove]
      requires finished || ToldOf(fired, c) == done
      modifies this`byId, this`byName, this`stat, this`fired
      ensures View() == Perform(p, old(View()), c, ops)
      ensures ManagerInv(p, View()) && finished == old(finished) && (finished || ToldOf(fired, c) == done + ops)
    {
      assert done + [] == done;
      if |ops| > 0 {
        var k := |ops| - 1;
        assert done + ops == (done + ops[..k]) + [ops[k]];
        Serve(c, done, ops[..k]);
        Call(c, done + ops[..k], ops[k]);
      }
    }

    method Move(c: Id, s: Conn)
      requires Sane(p) && ManagerInv(p, View()) && RecordsAgree(p, View()) && c < |p.cfgs|
      requires conns[c].registry <= s.registry <= [Insert, Remove]
      modifies this
      ensures View() == Update(p, old(View()), c, s)
    {
      var done := conns[c].registry;
      conns := conns[c := s];
      assert done + s.registry[|done|..] == s.registry;
      Serve(c, done, s.registry[|done|..]);
    }

    method Deliver(c: Id, entry: Entry, now: int)
      requires Sane(p) && ManagerInv(p, View()) && RecordsAgree(p, View()) && c < |p.cfgs|
      modifies this
      ensures View() == SendTo(p, old(View()), c, entry, now)
      ensures ManagerInv(p, View()) && RecordsAgree(p, View())
    {
      SendToKeeps(p, View(), c, entry, now);
      SendFollows(p, View(), c, entry, now);
      Move(c, conns[c].OnSend(p.cfgs[c], entry, now));
    }

    method Shut(c: Id)
      requires Sane(p) && ManagerInv(p, View()) && RecordsAgree(p, View()) && c < |p.cfgs|
      modifies this
      ensures View() == CloseOne(p, old(View()), c)
      ensures ManagerInv(p, View()) && RecordsAgree(p, View())
    {
      CloseOneKeeps(p, View(), c);
      CloseFollows(p, View(), c);
      Move(c, conns[c].Cleanup(p.cfgs[c]));
    }

    /** First loop of `send`: who is to get the message. */
    method ListTargets(ids: seq<Id>, m: Mail, passing: set<Id>) returns (list: seq<Id>)
      requires Known(p, ids)
      ensures list == Targets(p, ids, m, passing)
    {
      list := [];
      for k := 0 to |ids|
        invariant list == Targets(p, ids[..k], m, passing)
      {
        assert ids[..k + 1][..k] == ids[..k];
        if p.cfgs[ids[k]].formatters.Allows(m, ids[k] in passing) {
          list := list + [ids[k]];
        }
      }
      assert ids[..|ids|] == ids;
    }

    /** Second loop of `send`, over the finished list. */
    method DeliverAll(list: seq<Id>, m: Mail, now: int)
      requires Sane(p) && ManagerInv(p, View()) && RecordsAgree(p, View()) && Known(p, list)
      modifies this
      ensures View() == SendAll(p, old(View()), list, m, now)
    {
      for k := 0 to |list|
        invariant ManagerInv(p, View()) && RecordsAgree(p, View())
        invariant View() == SendAll(p, old(View()), list[..k], m, now)
      {
        SendAllStep(p, old(View()), list, m, now, k);
        Deliver(list[k], m.For(list[k]), now);
      }
      assert list[..|list|] == list;
    }

    method SendByName(to: string, m: Mail, passing: set<Id>, now: int)
      requires Valid()
      modifies this
      ensures Valid() && View() == AfterSendByName(p, old(View()), to, m, passing, now)
    {
      StrandInvariant.StepKeeps(p, View(), StrandSpec.Event.SendByName(to, m, passing, now));
      if finished {
        return;
      }
      var ids := Named(to);
      if ids == [] {
        fired := fired + [Disconnected(to)];
        return;
      }
      var list := ListTargets(ids, m, passing);
      DeliverAll(list, m, now);
    }

    method SendById(c: Id, m: Mail, passing: set<Id>, now: int)
      requires Valid()
      modifies this
      ensures Valid() && View() == AfterSendById(p, old(View()), c, m, passing, now)
    {
      StrandInvariant.StepKeeps(p, View(), StrandSpec.Event.SendById(c, m, passing, now));
      if finished || c !in byId {
        return;
      }
      var list := ListTargets([c], m, passing);
      DeliverAll(list, m, now);
    }

    method NotifyConnectionOpenedFailed(to: string, c: Id)
      requires Valid()
      modifies this
      ensures Valid() && View() == AfterOpenFailed(p, old(View()), to, c)
    {
      StrandInvariant.StepKeeps(p, View(), StrandSpec.Event.OpenFailed(to, c));
      if finished || c !in byId {
        return;
      }
      if p.cfgs[c].name == to {
        Shut(c);
      }
    }

    /** `order` is the order in which the id index is walked. */
    method FinishAllConnections(order: seq<Id>, now: int)
      requires Valid() && Known(p, order) && multiset(order) == multiset(byId)
      modifies this
      ensures Valid() && View() == AfterFinish(p, old(View()), order, now)
    {
      StrandInvariant.StepKeeps(p, View(), FinishManager(order, now));
      if finished {
        return;
      }
      EmptiedKeeps(p, View());
      finished := true;
      byId, byName := {}, map[];
      FinishEach(order, now);
    }

    /** The loop over the connections that were registered. */
    method FinishEach(order: seq<Id>, now: int)
      requires Sane(p) && ManagerInv(p, View()) && RecordsAgree(p, View()) && Known(p, order)
      modifies this
      ensures View() == FinishAll(p, old(View()), order, now)
    {
      for k := 0 to |order|
        invariant ManagerInv(p, View()) && RecordsAgree(p, View())
        invariant View() == FinishAll(p, old(View()), order[..k], now)
      {
        FinishAllStep(p, old(View()), order, now, k);
        Deliver(order[k], Finish, now);
        Shut(order[k]);
      }
      assert order[..|order|] == order;
    }
  }

  lemma {:induction false} DecAllPrefix(d: Stat, ids: seq<ChannelId>, k: nat)
    requires DecAllAllowed(d, ids) && 0 < k <= |ids|
    ensures DecAllAllowed(d, ids[..k])
  {
    if k == |ids| {
      assert ids[..k] == ids;
    } else {
      DecAllPrefix(d, ids[..|ids| - 1], k);
      assert ids[..|ids| - 1][..k] == ids[..k];
    }
  }

  lemma SendAllStep(p: Setup, w: World, list: seq<Id>, m: Mail, now: int, k: nat)
    requires |w.conns| == |p.cfgs| && Known(p, list) && k < |list|
    ensures SendAll(p, w, list[..k + 1], m, now) ==
            SendTo(p, SendAll(p, w, list[..k], m, now), list[k], m.For(list[k]), now)
  {
    assert list[..k + 1][..k] == list[..k];
  }

  lemma FinishAllStep(p: Setup, w: World, order: seq<Id>, now: int, k: nat)
    requires |w.conns| == |p.cfgs| && Known(p, order) && k < |order|
    ensures FinishAll(p, w, order[..k + 1], now) ==
            CloseOne(p, SendTo(p, FinishAll(p, w, order[..k], now), order[k], Finish, now), order[k])
  {
    assert order[..k + 1][..k] == order[..k];
  }

  lemma SendFollows(p: Setup, w: World, c: Id, entry: Entry, now: int)
    requires Sane(p) && RecordsAgree(p, w) && c < |p.cfgs|
    ensures w.conns[c].registry <= w.conns[c].OnSend(p.cfgs[c], entry, now).registry <= [Insert, Remove]
  {
    ConnectionInvariant.OnSendKeeps(p.cfgs[c], w.conns[c], entry, now);
    ConnFollows(p.cfgs[c], w.conns[c], w.conns[c].OnSend(p.cfgs[c], entry, now), w.finished);
  }

  lemma CloseFollows(p: Setup, w: World, c: Id)
    requires Sane(p) && RecordsAgree(p, w) && c < |p.cfgs|
    ensures w.conns[c].registry <= w.conns[c].Cleanup(p.cfgs[c]).registry <= [Insert, Remove]
  {
    ConnectionInvariant.CleanupKeeps(p.cfgs[c], w.conns[c]);
    ConnFollows(p.cfgs[c], w.conns[c], w.conns[c].Cleanup(p.cfgs[c]), w.finished);
  }
}
