/** What every interleaving of pushes, queue threads and listener callbacks keeps. */
module NotificationInvariant {
  import opened Notification
  import opened Sequences

  // ---- Queues: nothing lost, nothing doubled, order kept ----

  ghost predicate Ordered(p: Params, s: State) {
    && Shaped(p, s) && AllKnown(p, s.accepted) && AllKnown(p, s.taken)
    && (forall i :: 0 <= i < p.queues ==> QueueOrdered(p, s, i))
  }

  /** What a queue accepted has been begun, or waits in its thread's batch or in the queue. */
  ghost predicate QueueOrdered(p: Params, s: State, j: nat)
    requires Shaped(p, s) && AllKnown(p, s.accepted) && AllKnown(p, s.taken) && j < p.queues
  {
    Select(p, s.accepted, ByQueue(j)) == Select(p, s.taken, ByQueue(j)) + s.workers[j].batch + s.queues[j].items
  }

  /** Pending items of a queue are known and belong there. */
  lemma PendingAtHome(p: Params, s: State, i: nat)
    requires Ordered(p, s) && i < p.queues
    ensures AllKnown(p, s.workers[i].batch) && AllKnown(p, s.queues[i].items)
    ensures forall item <- s.workers[i].batch :: Index(p, NameOf(p, item)) == i
  {
    var all, taken, batch, items :=
      Select(p, s.accepted, ByQueue(i)), Select(p, s.taken, ByQueue(i)), s.workers[i].batch, s.queues[i].items;
    SelectedMatch(p, s.accepted, ByQueue(i));
    assert QueueOrdered(p, s, i);
    forall k | 0 <= k < |batch| ensures Known(p, batch[k]) && Index(p, NameOf(p, batch[k])) == i {
      assert batch[k] == all[|taken| + k];
    }
    forall k | 0 <= k < |items| ensures Known(p, items[k]) {
      assert items[k] == all[|taken| + |batch| + k];
    }
  }

  lemma {:induction false} SelectedMatch(p: Params, items: seq<Item>, key: Key)
    requires p.queues > 0 && AllKnown(p, items)
    ensures forall k :: 0 <= k < |Select(p, items, key)| ==> Matches(p, key, Select(p, items, key)[k])
  {
    if items != [] { SelectedMatch(p, items[..|items| - 1], key); }
  }

  lemma PushOrdered(p: Params, s: State, item: Item)
    requires Ordered(p, s) && Enabled(p, s, Push(item))
    ensures Ordered(p, Step(p, s, Push(item)))
  {
    var t := Step(p, s, Push(item));
    forall i | 0 <= i < p.queues ensures Shaped(p, t) && AllKnown(p, t.accepted) && QueueOrdered(p, t, i) {
      assert QueueOrdered(p, s, i);
      SelectLast(p, s.accepted, item, ByQueue(i));
      Assoc(Select(p, s.taken, ByQueue(i)) + s.workers[i].batch, s.queues[i].items, [item]);
    }
  }

  lemma TakeOrdered(p: Params, s: State, i: nat)
    requires Ordered(p, s) && Enabled(p, s, Take(i))
    ensures Ordered(p, Step(p, s, Take(i)))
  {
    forall j | 0 <= j < p.queues
      ensures var t := Step(p, s, Take(i)); Shaped(p, t) && AllKnown(p, t.taken) && QueueOrdered(p, t, j)
    {
      TakeQueue(p, s, i, j);
    }
  }

  /** What taking an item changes. */
  lemma Taken(p: Params, s: State, i: nat)
    requires Ordered(p, s) && Enabled(p, s, Take(i))
    ensures var t := Step(p, s, Take(i)); var batch := s.workers[i].batch;
      && Shaped(p, t) && t.accepted == s.accepted && t.taken == s.taken + [batch[0]] && t.queues == s.queues
      && (forall j :: 0 <= j < p.queues ==> t.workers[j].batch == if j == i then batch[1..] else s.workers[j].batch)
  {
    StepShaped(p, s, Take(i));
  }

  lemma TakeQueue(p: Params, s: State, i: nat, j: nat)
    requires Ordered(p, s) && Enabled(p, s, Take(i)) && j < p.queues
    ensures var t := Step(p, s, Take(i)); Shaped(p, t) && AllKnown(p, t.taken) && QueueOrdered(p, t, j)
  {
    var batch := s.workers[i].batch;
    Taken(p, s, i);
    PendingAtHome(p, s, i);
    assert QueueOrdered(p, s, j);
    SelectLast(p, s.taken, batch[0], ByQueue(j));
    if i == j { FirstTaken(p, s.accepted, s.taken, batch, s.queues[j].items, j); }
  }

  lemma SelectLast(p: Params, items: seq<Item>, item: Item, key: Key)
    requires p.queues > 0 && AllKnown(p, items) && Known(p, item)
    ensures Select(p, items + [item], key) == Select(p, items, key) + if Matches(p, key, item) then [item] else []
  {
    assert (items + [item])[..|items|] == items;
  }

  lemma FirstTaken(p: Params, accepted: seq<Item>, taken: seq<Item>, batch: seq<Item>, items: seq<Item>, j: nat)
    requires p.queues > 0 && AllKnown(p, accepted) && AllKnown(p, taken)
    requires batch != [] && Known(p, batch[0]) && Index(p, NameOf(p, batch[0])) == j
    requires Select(p, accepted, ByQueue(j)) == Select(p, taken, ByQueue(j)) + batch + items
    ensures Select(p, accepted, ByQueue(j)) == Select(p, taken + [batch[0]], ByQueue(j)) + batch[1..] + items
  {
    SelectLast(p, taken, batch[0], ByQueue(j));
    FirstMoves(Select(p, taken, ByQueue(j)), batch, items);
  }

  lemma FirstMoves(taken: seq<Item>, batch: seq<Item>, items: seq<Item>)
    requires batch != []
    ensures taken + batch + items == (taken + [batch[0]]) + batch[1..] + items
  {
    assert batch == [batch[0]] + batch[1..];
    Assoc(taken, [batch[0]], batch[1..]);
  }

  /** Moving items between a queue and its thread's batch keeps the order. */
  lemma MovedOrdered(p: Params, s: State, t: State)
    requires Ordered(p, s) && Shaped(p, t) && t.accepted == s.accepted && t.taken == s.taken
    requires forall i :: 0 <= i < p.queues ==>
      t.workers[i].batch + t.queues[i].items == s.workers[i].batch + s.queues[i].items
    ensures Ordered(p, t)
  {
    forall i | 0 <= i < p.queues ensures QueueOrdered(p, t, i) {
      assert QueueOrdered(p, s, i);
      var taken := Select(p, s.taken, ByQueue(i));
      Assoc(taken, s.workers[i].batch, s.queues[i].items);
      Assoc(taken, t.workers[i].batch, t.queues[i].items);
    }
  }

  lemma StepShaped(p: Params, s: State, e: Event)
    requires Ordered(p, s) && Enabled(p, s, e)
    ensures Shaped(p, Step(p, s, e))
  {
    var t := Step(p, s, e);
    forall i, c: Id | 0 <= i < p.queues && About(t.workers[i].act, c) ensures c < |p.names| {
      if About(s.workers[i].act, c) {
      } else {
        assert e.Take? && e.queue == i;
      }
    }
  }

  lemma StepOrdered(p: Params, s: State, e: Event)
    requires Ordered(p, s) && Enabled(p, s, e)
    ensures Ordered(p, Step(p, s, e))
  {
    StepShaped(p, s, e);
    match e
    case Push(item) => PushOrdered(p, s, item);
    case Take(i) => TakeOrdered(p, s, i);
    case _ => MovedOrdered(p, s, Step(p, s, e));
  }

  /** The items of a name are begun in the order in which they were accepted, none skipped. */
  lemma NameOrder(p: Params, s: State, name: string)
    requires Ordered(p, s)
    ensures Select(p, s.taken, ByName(name)) <= Select(p, s.accepted, ByName(name))
  {
    Prefix(p, s, Index(p, name), ByName(name));
  }

  lemma ConnOrder(p: Params, s: State, c: Id)
    requires Ordered(p, s) && c < |p.names|
    ensures Select(p, s.taken, ByConn(c)) <= Select(p, s.accepted, ByConn(c))
  {
    Prefix(p, s, Index(p, p.names[c]), ByConn(c));
  }

  lemma Prefix(p: Params, s: State, i: nat, key: Key)
    requires Ordered(p, s) && i < p.queues
    requires forall item: Item :: Known(p, item) && Matches(p, key, item) ==> Matches(p, ByQueue(i), item)
    ensures Select(p, s.taken, key) <= Select(p, s.accepted, key)
  {
    PendingAtHome(p, s, i);
    var rest := s.workers[i].batch + s.queues[i].items;
    SelectTwice(p, s.accepted, ByQueue(i), key);
    SelectTwice(p, s.taken, ByQueue(i), key);
    assert QueueOrdered(p, s, i);
    Assoc(Select(p, s.taken, ByQueue(i)), s.workers[i].batch, s.queues[i].items);
    SelectAppend(p, Select(p, s.taken, ByQueue(i)), rest, key);
  }

  /** A queue with nothing pending has begun all that it accepted. */
  lemma Drained(p: Params, s: State, c: Id)
    requires Ordered(p, s) && c < |p.names|
    requires var i := Index(p, p.names[c]); s.queues[i].items == [] && s.workers[i].batch == []
    ensures Select(p, s.taken, ByConn(c)) == Select(p, s.accepted, ByConn(c))
  {
    var i := Index(p, p.names[c]);
    var begun := Select(p, s.taken, ByQueue(i));
    assert QueueOrdered(p, s, i);
    assert begun + [] + [] == begun;
    SelectTwice(p, s.accepted, ByQueue(i), ByConn(c));
    SelectTwice(p, s.taken, ByQueue(i), ByConn(c));
  }

  // ---- Guards and listeners ----

  /** Listener `l` after an open that stopped at listener `f`. */
  function RolledBack(l: nat, f: nat): seq<Mark> {
    if l < f then [Ok, Shut] else if l == f then [Threw] else []
  }

  /** What listener `l` knows of a connection, by guard state and the act in progress. */
  ghost predicate Knows(h: seq<Mark>, g: Guard.State, act: Act, l: nat) {
    match act
    case Opening(_, k) => h == if l < k then [Ok] else []
    case Rolling(_, f, k) => h == if k <= l then RolledBack(l, f) else [Ok]
    case Closing(_, k) => h == if l < k then [Ok] else [Ok, Shut]
    case _ => h == if g.None? then [] else if g.Ok? then [Ok] else [Ok, Shut]
  }

  ghost predicate Undone(p: Params, trace: seq<Call>, c: Id, f: nat) {
    f < p.listeners && forall l :: 0 <= l < p.listeners ==> History(trace, l, c) == RolledBack(l, f)
  }

  /** The state of one connection: guard, act about it (or `Idle`), items begun, calls made. */
  ghost predicate ConnInv(p: Params, g: Guard.State, act: Act, begun: seq<Item>, trace: seq<Call>, c: Id) {
    && (g.None? <==> begun == [])
    && (g.Opened? <==> act.Opening? || act.Rolling?)
    && (act.Closing? ==> g.Closed?)
    && (act.Opening? ==> act.next <= p.listeners)
    && (act.Rolling? ==> act.next <= act.failed < p.listeners)
    && (act.Closing? ==> act.next <= p.listeners)
    && (begun == [] || begun == [OpenItem(c)] || begun == [OpenItem(c), CloseItem(c)])
    && (g.Opened? || g.Ok? ==> begun == [OpenItem(c)])
    && (g.Closed? ==> begun == [OpenItem(c), CloseItem(c)])
    && (if g.Canceled? then exists f :: Undone(p, trace, c, f)
        else forall l :: 0 <= l < p.listeners ==> Knows(History(trace, l, c), g, act, l))
  }

  /** What the thread of the connection's queue is doing about it. */
  function Doing(p: Params, s: State, c: Id): Act
    requires p.queues > 0 && c < |p.names| && |s.workers| == p.queues
  {
    var act := s.workers[Index(p, p.names[c])].act;
    if About(act, c) then act else Idle
  }

  /** Only the thread that a connection's name hashes to ever touches its guard. */
  ghost predicate OneThread(p: Params, s: State) {
    && Shaped(p, s)
    && (forall i, c: Id :: 0 <= i < p.queues && About(s.workers[i].act, c) ==> Index(p, p.names[c]) == i)
  }

  ghost predicate Inv(p: Params, s: State) {
    && Ordered(p, s) && OneThread(p, s)
    && (forall c :: 0 <= c < |p.names| ==>
          ConnInv(p, s.guards[c], Doing(p, s, c), Select(p, s.taken, ByConn(c)), s.trace, c))
  }

  /** The strand pushes a connection's open once, and its close once, after it. */
  ghost predicate Disciplined(p: Params, items: seq<Item>) {
    && p.queues > 0 && AllKnown(p, items)
    && (forall c :: 0 <= c < |p.names| ==> Select(p, items, ByConn(c)) <= [OpenItem(c), CloseItem(c)])
  }

  lemma StartKeeps(p: Params)
    requires p.queues > 0
    ensures Inv(p, Start(p))
  {
  }

  /** Steps that touch neither guards, acts, begun items nor calls. */
  lemma QuietStep(p: Params, s: State, t: State)
    requires Inv(p, s) && Ordered(p, t) && t.guards == s.guards && t.taken == s.taken && t.trace == s.trace
    requires forall i :: 0 <= i < p.queues ==> t.workers[i].act == s.workers[i].act
    ensures Inv(p, t)
  {
    forall c | 0 <= c < |p.names| ensures Doing(p, t, c) == Doing(p, s, c) {}
  }

  /** Beginning an item about a connection that no thread is busy with. */
  lemma BeginConn(p: Params, g: Guard.State, begun: seq<Item>, trace: seq<Call>, c: Id, item: Item)
    requires ConnInv(p, g, Idle, begun, trace, c) && c < |p.names|
    requires begun + [item] <= [OpenItem(c), CloseItem(c)]
    ensures item == OpenItem(c) ==> g.None? && ConnInv(p, g.Open(), Opening(c, 0), begun + [item], trace, c)
    ensures item == CloseItem(c) ==>
      if g.Ok? then ConnInv(p, g.Close(), Closing(c, p.listeners), begun + [item], trace, c)
      else ConnInv(p, g, Idle, begun + [item], trace, c)
  {
    assert item == [OpenItem(c), CloseItem(c)][|begun|];
    if item == CloseItem(c) {
      assert begun + [item] == [OpenItem(c), CloseItem(c)];
    } else {
      assert begun == [];
    }
  }

  lemma TakeKeeps(p: Params, s: State, i: nat)
    requires Inv(p, s) && Enabled(p, s, Take(i)) && Disciplined(p, s.accepted)
    ensures Inv(p, Step(p, s, Take(i)))
  {
    var t := Step(p, s, Take(i));
    TakeOrdered(p, s, i);
    TakeOneThread(p, s, i);
    forall c | 0 <= c < |p.names|
      ensures ConnInv(p, t.guards[c], Doing(p, t, c), Select(p, t.taken, ByConn(c)), t.trace, c)
    {
      TakeConn(p, s, i, c);
    }
  }

  lemma TakeOneThread(p: Params, s: State, i: nat)
    requires Ordered(p, s) && OneThread(p, s) && Enabled(p, s, Take(i))
    ensures OneThread(p, Step(p, s, Take(i)))
  {
    PendingAtHome(p, s, i);
    assert s.workers[i].batch[0] in s.workers[i].batch;
    StepShaped(p, s, Take(i));
  }

  lemma TakeConn(p: Params, s: State, i: nat, c: Id)
    requires Inv(p, s) && Enabled(p, s, Take(i)) && Disciplined(p, s.accepted) && c < |p.names|
    requires Ordered(p, Step(p, s, Take(i)))
    ensures var t := Step(p, s, Take(i));
      ConnInv(p, t.guards[c], Doing(p, t, c), Select(p, t.taken, ByConn(c)), t.trace, c)
  {
    var item := s.workers[i].batch[0];
    var t := Step(p, s, Take(i));
    PendingAtHome(p, s, i);
    assert item in s.workers[i].batch;
    SelectLast(p, s.taken, item, ByConn(c));
    if Matches(p, ByConn(c), item) {
      ConnOrder(p, t, c);
      BeginConn(p, s.guards[c], Select(p, s.taken, ByConn(c)), s.trace, c, item);
    } else {
      assert Doing(p, t, c) == Doing(p, s, c) && t.guards[c] == s.guards[c];
    }
  }

  /** A callback about a connection. */
  lemma CallbackConn(p: Params, g: Guard.State, act: Act, begun: seq<Item>, trace: seq<Call>, c: Id, throws: bool)
    requires ConnInv(p, g, act, begun, trace, c) && About(act, c) && Calls(p, act)
    ensures var (call, next) := AfterCallback(p, act, throws);
      About(next, c) && ConnInv(p, g, next, begun, trace + [call], c)
  {
    var (call, next) := AfterCallback(p, act, throws);
    HistoryAppend(trace, call);
  }

  lemma CallbackKeeps(p: Params, s: State, i: nat, throws: bool)
    requires Inv(p, s) && Enabled(p, s, Callback(i, throws))
    ensures Inv(p, Step(p, s, Callback(i, throws)))
  {
    var t := Step(p, s, Callback(i, throws));
    StepOrdered(p, s, Callback(i, throws));
    forall c | 0 <= c < |p.names|
      ensures ConnInv(p, t.guards[c], Doing(p, t, c), Select(p, t.taken, ByConn(c)), t.trace, c)
    {
      if About(s.workers[i].act, c) {
        CallbackConn(p, s.guards[c], s.workers[i].act, Select(p, s.taken, ByConn(c)), s.trace, c, throws);
      } else {
        HistoryAppend(s.trace, AfterCallback(p, s.workers[i].act, throws).0);
        assert Doing(p, t, c) == Doing(p, s, c);
        OtherCall(p, s.guards[c], Doing(p, s, c), Select(p, s.taken, ByConn(c)), s.trace, t.trace, c);
      }
    }
  }

  /** Calls about other connections do not matter. */
  lemma OtherCall(p: Params, g: Guard.State, act: Act, begun: seq<Item>, trace: seq<Call>, longer: seq<Call>, c: Id)
    requires ConnInv(p, g, act, begun, trace, c)
    requires forall l :: 0 <= l < p.listeners ==> History(longer, l, c) == History(trace, l, c)
    ensures ConnInv(p, g, act, begun, longer, c)
  {
    if g.Canceled? {
      var f :| Undone(p, trace, c, f);
      assert Undone(p, longer, c, f);
    }
  }

  lemma EndConn(p: Params, g: Guard.State, act: Act, begun: seq<Item>, trace: seq<Call>, c: Id)
    requires ConnInv(p, g, act, begun, trace, c) && About(act, c) && !Calls(p, act)
    ensures ConnInv(p, if act.Opening? then g.Commit() else if act.Rolling? then g.Cancel() else g, Idle, begun, trace, c)
  {
    if act.Rolling? {
      assert Undone(p, trace, c, act.failed);
    }
  }

  lemma EndKeeps(p: Params, s: State, i: nat)
    requires Inv(p, s) && Enabled(p, s, EndItem(i))
    ensures Inv(p, Step(p, s, EndItem(i)))
  {
    var t := Step(p, s, EndItem(i));
    StepOrdered(p, s, EndItem(i));
    forall c | 0 <= c < |p.names|
      ensures ConnInv(p, t.guards[c], Doing(p, t, c), Select(p, t.taken, ByConn(c)), t.trace, c)
    {
      if About(s.workers[i].act, c) {
        EndConn(p, s.guards[c], s.workers[i].act, Select(p, s.taken, ByConn(c)), s.trace, c);
      } else {
        assert Doing(p, t, c) == Doing(p, s, c);
      }
    }
  }

  lemma StepKeeps(p: Params, s: State, e: Event)
    requires Inv(p, s) && Enabled(p, s, e) && Disciplined(p, s.accepted)
    ensures Inv(p, Step(p, s, e))
  {
    match e
    case Take(i) => TakeKeeps(p, s, i);
    case Callback(i, throws) => CallbackKeeps(p, s, i, throws);
    case EndItem(i) => EndKeeps(p, s, i);
    case _ => StepOrdered(p, s, e); QuietStep(p, s, Step(p, s, e));
  }
}
