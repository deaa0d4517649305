/** The listener object: it queues events by receiver name, and a thread's turn takes a queue's
    events and processes them one by one; and the agreement of that processing with the steps
    of the protocol. Models library/threaded_listener.cpp. */
module ThreadedListener {
  import opened ThreadedQueue
  import opened Notification
  import opened CompoundListener
  import opened Sequences

  /** What processing leaves: the guards, the calls made, the opens reported as failed. */
  datatype Outcome = Outcome(guards: seq<Guard.State>, calls: seq<Call>, failed: seq<Id>)

  /** `throws[l]` says whether listener `l` throws when it is told. */
  function Processed(p: Params, guards: seq<Guard.State>, item: Item, throws: seq<bool>): (r: Outcome)
    requires |guards| == |p.names| && Known(p, item) && |throws| == p.listeners
    ensures |r.guards| == |guards|
  {
    match item
    case LostItem(name) => Outcome(guards, LostCalls(name, 0, throws), [])
    case OpenItem(c) =>
      if !guards[c].None? then Outcome(guards, [], [])
      else if FirstThrower(throws, 0) < |throws| then
        Outcome(guards[c := Guard.Canceled], OpenCalls(c, 0, throws), [c])
      else Outcome(guards[c := Guard.Ok], OpenCalls(c, 0, throws), [])
    case CloseItem(c) =>
      if !guards[c].Ok? then Outcome(guards, [], [])
      else Outcome(guards[c := Guard.Closed], CloseCalls(c, p.listeners), [])
  }

  ghost predicate Verdicts(p: Params, throws: seq<seq<bool>>) {
    forall k :: 0 <= k < |throws| ==> |throws[k]| == p.listeners
  }

  ghost function ProcessedAll(p: Params, guards: seq<Guard.State>, items: seq<Item>, throws: seq<seq<bool>>): (r: Outcome)
    requires |guards| == |p.names| && AllKnown(p, items) && Verdicts(p, throws) && |throws| == |items|
    ensures |r.guards| == |guards|
    decreases |items|
  {
    if items == [] then Outcome(guards, [], [])
    else
      var first := Processed(p, guards, items[0], throws[0]);
      var rest := ProcessedAll(p, first.guards, items[1..], throws[1..]);
      Outcome(rest.guards, first.calls + rest.calls, first.failed + rest.failed)
  }

  class ThreadedListener {
    const p: Params
    const listeners: Listeners
    const guards: seq<Guard.Guard>
    var queues: seq<ThreadedQueue<Item>>
    var failed: seq<Id>

    ghost predicate Valid()
      reads this
    {
      && p.queues > 0 && |guards| == |p.names| && listeners.count == p.listeners
      && |queues| == (if p.listeners == 0 then 0 else p.queues)
      && (forall i, j :: 0 <= i < j < |guards| ==> guards[i] != guards[j])
      && Separate()
    }

    ghost predicate Separate()
      reads this
    {
      forall i, j :: 0 <= i < j < |queues| ==> queues[i] != queues[j]
    }

    /** One queue a thread, and one thread at least. */
    constructor (p: Params, listeners: Listeners, guards: seq<Guard.Guard>, threads: nat)
      requires |guards| == |p.names| && listeners.count == p.listeners
      requires forall i, j :: 0 <= i < j < |guards| ==> guards[i] != guards[j]
      requires p.queues == if threads == 0 then 1 else threads
      ensures Valid() && failed == []
      ensures this.p == p && this.listeners == listeners && this.guards == guards
      ensures forall i :: 0 <= i < |queues| ==> fresh(queues[i]) && queues[i].View() == Queue([], false)
    {
      this.p, this.listeners, this.guards, queues, failed := p, listeners, guards, [], [];
      new;
      if listeners.count != 0 {
        for i := 0 to p.queues
          invariant |queues| == i && Separate()
          invariant this.p == p && this.listeners == listeners && this.guards == guards && failed == []
          invariant forall k :: 0 <= k < |queues| ==> fresh(queues[k]) && queues[k].View() == Queue([], false)
        {
          var queue := new ThreadedQueue();
          queues := queues + [queue];
        }
      }
    }

    function States(): (r: seq<Guard.State>)
      reads guards
      ensures |r| == |guards|
    {
      seq(|guards|, i requires 0 <= i < |guards| reads guards => guards[i].state)
    }

    method CalcIndex(to: string) returns (index: nat)
      requires Valid() && p.listeners > 0
      ensures index == Index(p, to)
    {
      var size := |queues|;
      if 1 == size {
        return 0;
      }
      return p.hash(to) % size;
    }

    /** connection_opened_ex, connection_closed_ex and disconnected. */
    method Accept(item: Item)
      requires Valid() && Known(p, item)
      modifies queues
      ensures forall i :: 0 <= i < |queues| ==>
        queues[i].View() ==
          if i == Index(p, NameOf(p, item)) then old(queues[i].View()).AfterPush(item) else old(queues[i].View())
    {
      if p.listeners != 0 {
        var index := CalcIndex(NameOf(p, item));
        var _ := queues[index].Push(item);
      }
    }

    method ProcessItem(item: Item, throws: seq<bool>)
      requires Valid() && Known(p, item) && |throws| == p.listeners
      modifies guards, listeners, this`failed
      ensures var r := Processed(p, old(States()), item, throws);
        && States() == r.guards && listeners.log == old(listeners.log) + r.calls && failed == old(failed) + r.failed
    {
      if item.LostItem? {
        var _ := listeners.NotifyDisconnected(item.name, throws);
      } else if item.OpenItem? {
        var first := guards[item.conn].Open();
        if first {
          var threw := listeners.NotifyConnectionOpened(item.conn, throws);
          if !threw {
            var _ := guards[item.conn].Commit();
          } else {
            var _ := guards[item.conn].Cancel();
            failed := failed + [item.conn];
          }
        }
      } else {
        var last := guards[item.conn].Close();
        if last {
          listeners.NotifyConnectionClosed(item.conn);
        }
      }
    }

    /** One turn of a thread's loop, past the wait. */
    method ThreadTurn(index: nat, throws: seq<seq<bool>>) returns (more: bool)
      requires Valid() && index < |queues| && queues[index].View().Ready()
      requires AllKnown(p, queues[index].items) && Verdicts(p, throws) && |throws| == |queues[index].items|
      modifies queues[index], guards, listeners, this`failed
      ensures more == !old(queues[index].finished)
      ensures !more ==> States() == old(States()) && listeners.log == old(listeners.log) && failed == old(failed)
      ensures more ==>
        var r := ProcessedAll(p, old(States()), old(queues[index].items), throws);
        && queues[index].items == []
        && States() == r.guards && listeners.log == old(listeners.log) + r.calls && failed == old(failed) + r.failed
    {
      var items;
      more, items := queues[index].PopAll();
      if more {
        ProcessItems(items, throws);
      }
    }

    method ProcessItems(items: seq<Item>, throws: seq<seq<bool>>)
      requires Valid() && AllKnown(p, items) && Verdicts(p, throws) && |throws| == |items|
      modifies guards, listeners, this`failed
      ensures var r := ProcessedAll(p, old(States()), items, throws);
        && States() == r.guards && listeners.log == old(listeners.log) + r.calls && failed == old(failed) + r.failed
    {
      ghost var all := ProcessedAll(p, States(), items, throws);
      ghost var log, reported := listeners.log, failed;
      ghost var done := Outcome(States(), [], []);
      assert items[0..] == items && throws[0..] == throws;
      assert Then(done, all) == all;
      for k := 0 to |items|
        invariant AllKnown(p, items[k..]) && Verdicts(p, throws[k..])
        invariant done.guards == States() && listeners.log == log + done.calls && failed == reported + done.failed
        invariant Then(done, ProcessedAll(p, done.guards, items[k..], throws[k..])) == all
      {
        ThenOne(p, done, items, throws, k);
        ghost var one := Processed(p, done.guards, items[k], throws[k]);
        ProcessItem(items[k], throws[k]);
        Assoc(log, done.calls, one.calls);
        Assoc(reported, done.failed, one.failed);
        done := Then(done, one);
      }
    }
  }

  function Then(a: Outcome, b: Outcome): Outcome {
    Outcome(b.guards, a.calls + b.calls, a.failed + b.failed)
  }

  lemma ThenOne(p: Params, done: Outcome, items: seq<Item>, throws: seq<seq<bool>>, k: nat)
    requires |done.guards| == |p.names| && k < |items| == |throws|
    requires AllKnown(p, items[k..]) && Verdicts(p, throws[k..])
    ensures Known(p, items[k]) && |throws[k]| == p.listeners
    ensures AllKnown(p, items[k + 1..]) && Verdicts(p, throws[k + 1..])
    ensures var next := Then(done, Processed(p, done.guards, items[k], throws[k]));
      Then(done, ProcessedAll(p, done.guards, items[k..], throws[k..])) ==
        Then(next, ProcessedAll(p, next.guards, items[k + 1..], throws[k + 1..]))
  {
    Suffix(items, k);
    Suffix(throws, k);
    var first := Processed(p, done.guards, items[k], throws[k]);
    var rest := ProcessedAll(p, first.guards, items[k + 1..], throws[k + 1..]);
    Assoc(done.calls, first.calls, rest.calls);
    Assoc(done.failed, first.failed, rest.failed);
  }

  // The steps of the protocol, undisturbed, are the processing above.

  lemma CallbackShaped(p: Params, s: State, i: nat, throws: bool)
    requires Shaped(p, s) && i < p.queues && Calls(p, s.workers[i].act)
    ensures Shaped(p, Step(p, s, Callback(i, throws)))
  {
    var t := Step(p, s, Callback(i, throws));
    forall j, c: Id | 0 <= j < p.queues && About(t.workers[j].act, c) ensures c < |p.names| {
      assert About(s.workers[j].act, c);
    }
  }

  /** What worker `i` does with its item when only it takes steps. */
  ghost function Undisturbed(p: Params, s: State, i: nat, throws: seq<bool>): State
    requires Shaped(p, s) && i < p.queues && |throws| == p.listeners
    requires s.workers[i].act.Rolling? ==> s.workers[i].act.next <= p.listeners
    decreases Remaining(s.workers[i].act, p.listeners)
  {
    var act := s.workers[i].act;
    if Calls(p, act) then
      var threw := (act.Opening? || act.Losing?) && throws[act.next];
      CallbackShaped(p, s, i, threw);
      Undisturbed(p, Step(p, s, Callback(i, threw)), i, throws)
    else if act.Idle? then s
    else Step(p, s, EndItem(i))
  }

  function Settled(guard: Guard.State, act: Act, throws: seq<bool>): Guard.State
    requires act.Opening? ==> act.next <= |throws|
  {
    match act
    case Opening(_, k) => if FirstThrower(throws, k) < |throws| then guard.Cancel() else guard.Commit()
    case Rolling(_, _, _) => guard.Cancel()
    case _ => guard
  }

  function Reports(act: Act, throws: seq<bool>): multiset<Id>
    requires act.Opening? ==> act.next <= |throws|
  {
    if act.Rolling? || (act.Opening? && FirstThrower(throws, act.next) < |throws|) then multiset{act.conn}
    else multiset{}
  }

  /** From `s` to `t`, worker `i` ended its act having made the calls. */
  ghost predicate Ended(p: Params, s: State, i: nat, throws: seq<bool>, t: State)
    requires Shaped(p, s) && i < p.queues && |throws| == p.listeners
    requires !s.workers[i].act.Losing? && !s.workers[i].act.Idle? ==> s.workers[i].act.next <= p.listeners
  {
    var act := s.workers[i].act;
    && t.trace == s.trace + ActCalls(p, act, throws)
    && t.workers == s.workers[i := Worker(s.workers[i].batch, Idle)] && t.queues == s.queues
    && |t.guards| == |s.guards|
    && (forall c: Id :: c < |s.guards| ==>
          t.guards[c] == if About(act, c) then Settled(s.guards[c], act, throws) else s.guards[c])
    && t.failed == s.failed + Reports(act, throws)
  }

  lemma EndItemEnds(p: Params, s: State, i: nat, throws: seq<bool>)
    requires Shaped(p, s) && Enabled(p, s, EndItem(i)) && |throws| == p.listeners
    requires !s.workers[i].act.Losing? ==> s.workers[i].act.next <= p.listeners
    ensures Ended(p, s, i, throws, Step(p, s, EndItem(i)))
  {
    assert s.trace + [] == s.trace;
  }

  lemma CallbackEnds(p: Params, s: State, i: nat, throws: seq<bool>, t: State)
    requires Shaped(p, s) && i < p.queues && |throws| == p.listeners && Calls(p, s.workers[i].act)
    requires s.workers[i].act.Losing? || s.workers[i].act.next <= p.listeners
    requires var act := s.workers[i].act;
      var next := Step(p, s, Callback(i, (act.Opening? || act.Losing?) && throws[act.next]));
      Shaped(p, next) && Ended(p, next, i, throws, t)
    ensures Ended(p, s, i, throws, t)
  {
    var act := s.workers[i].act;
    var threw := (act.Opening? || act.Losing?) && throws[act.next];
    var (call, after) := AfterCallback(p, act, threw);
    assert s.trace + [call] + ActCalls(p, after, throws) == s.trace + ([call] + ActCalls(p, after, throws));
    assert Reports(act, throws) == Reports(after, throws);
    forall c: Id | c < |s.guards| && About(act, c)
      ensures About(after, c) && Settled(s.guards[c], act, throws) == Settled(s.guards[c], after, throws)
    {
    }
  }

  lemma {:induction false} UndisturbedEnds(p: Params, s: State, i: nat, throws: seq<bool>)
    requires Shaped(p, s) && i < p.queues && |throws| == p.listeners
    requires !s.workers[i].act.Losing? && !s.workers[i].act.Idle? ==> s.workers[i].act.next <= p.listeners
    ensures Ended(p, s, i, throws, Undisturbed(p, s, i, throws))
    decreases Remaining(s.workers[i].act, p.listeners)
  {
    var act := s.workers[i].act;
    if Calls(p, act) {
      var threw := (act.Opening? || act.Losing?) && throws[act.next];
      var next := Step(p, s, Callback(i, threw));
      CallbackShaped(p, s, i, threw);
      UndisturbedEnds(p, next, i, throws);
      CallbackEnds(p, s, i, throws, Undisturbed(p, next, i, throws));
    } else if act.Idle? {
      assert s.trace + [] == s.trace;
    } else {
      EndItemEnds(p, s, i, throws);
    }
  }

  lemma {:induction false} StepsAreLost(p: Params, name: string, k: nat, throws: seq<bool>)
    requires |throws| == p.listeners && k <= p.listeners
    ensures ActCalls(p, Losing(name, k), throws) == LostCalls(name, k, throws)
    decreases p.listeners - k
  {
    if k < p.listeners && !throws[k] {
      StepsAreLost(p, name, k + 1, throws);
    }
  }

  lemma TakeShaped(p: Params, s: State, i: nat)
    requires Shaped(p, s) && Enabled(p, s, Take(i))
    ensures Shaped(p, Step(p, s, Take(i)))
  {
  }

  /** The calls of the act that an item starts, and what becomes of its guard. */
  lemma BegunIsProcessed(p: Params, guards: seq<Guard.State>, item: Item, throws: seq<bool>)
    requires |guards| == |p.names| && Known(p, item) && |throws| == p.listeners
    ensures var r := Processed(p, guards, item, throws); var (begun, act) := Begin(p, guards, item);
      && (!act.Losing? && !act.Idle? ==> act.next <= p.listeners && !act.Rolling?)
      && ActCalls(p, act, throws) == r.calls
      && Reports(act, throws) == multiset(r.failed)
      && (forall c: Id :: c < |guards| ==>
            r.guards[c] == if About(act, c) then Settled(begun[c], act, throws) else begun[c])
  {
    match item
    case LostItem(name) => StepsAreLost(p, name, 0, throws);
    case OpenItem(c) => if guards[c].None? { BegunOpen(p, guards, c, throws); }
    case CloseItem(c) => if guards[c].Ok? { BegunClose(p, guards, c, throws); }
  }

  lemma BegunClose(p: Params, guards: seq<Guard.State>, c: Id, throws: seq<bool>)
    requires |guards| == |p.names| && c < |p.names| && |throws| == p.listeners && guards[c].Ok?
    ensures var r := Processed(p, guards, CloseItem(c), throws);
      && ActCalls(p, Closing(c, p.listeners), throws) == r.calls
      && Reports(Closing(c, p.listeners), throws) == multiset(r.failed)
      && r.guards == guards[c := Settled(Guard.Closed, Closing(c, p.listeners), throws)]
  {
    StepsAreClose(p, c, throws);
  }

  lemma BegunOpen(p: Params, guards: seq<Guard.State>, c: Id, throws: seq<bool>)
    requires |guards| == |p.names| && c < |p.names| && |throws| == p.listeners && guards[c].None?
    ensures var r := Processed(p, guards, OpenItem(c), throws);
      && ActCalls(p, Opening(c, 0), throws) == r.calls
      && Reports(Opening(c, 0), throws) == multiset(r.failed)
      && r.guards == guards[c := Settled(Guard.Opened, Opening(c, 0), throws)]
  {
    StepsAreOpen(p, c, 0, throws);
  }

  /** Taking an item and going through its callbacks is what the object does with the item. */
  lemma StepsAreProcessing(p: Params, s: State, i: nat, throws: seq<bool>)
    requires Shaped(p, s) && Enabled(p, s, Take(i)) && |throws| == p.listeners
    ensures var r := Processed(p, s.guards, s.workers[i].batch[0], throws);
      var t := Undisturbed(p, Step(p, s, Take(i)), i, throws);
      && t.guards == r.guards && t.trace == s.trace + r.calls && t.failed == s.failed + multiset(r.failed)
      && t.workers == s.workers[i := Worker(s.workers[i].batch[1..], Idle)] && t.queues == s.queues
  {
    var taken := Step(p, s, Take(i));
    var (begun, act) := Begin(p, s.guards, s.workers[i].batch[0]);
    TakeShaped(p, s, i);
    BegunIsProcessed(p, s.guards, s.workers[i].batch[0], throws);
    assert taken.guards == begun && taken.workers == s.workers[i := Worker(s.workers[i].batch[1..], act)];
    UndisturbedEnds(p, taken, i, throws);
    EndedIsProcessed(p, s.guards, s.workers[i].batch[0], taken, i, throws, Undisturbed(p, taken, i, throws));
  }

  lemma EndedIsProcessed(
    p: Params, guards: seq<Guard.State>, item: Item, taken: State, i: nat, throws: seq<bool>, t: State)
    requires |guards| == |p.names| && Known(p, item) && |throws| == p.listeners
    requires Shaped(p, taken) && i < p.queues
    requires (taken.guards, taken.workers[i].act) == Begin(p, guards, item)
    requires var act := taken.workers[i].act; !act.Losing? && !act.Idle? ==> act.next <= p.listeners
    requires Ended(p, taken, i, throws, t)
    ensures var r := Processed(p, guards, item, throws);
      t.guards == r.guards && t.trace == taken.trace + r.calls && t.failed == taken.failed + multiset(r.failed)
  {
    BegunIsProcessed(p, guards, item, throws);
    assert t.guards == Processed(p, guards, item, throws).guards;
  }
}
