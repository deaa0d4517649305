/** The notification protocol: events pushed by the strand, one queue and thread per hash
    value, guards, and the calls that listeners see. Every lock-protected section, guard test
    and listener callback is one step. Models library/threaded_listener.cpp with
    library/compound_listener.cpp and library/guard.cpp. */
module Notification {
  import Guard
  import opened ThreadedQueue

  type Id = nat

  /** `hash` stands for the checksum of the receiver name. */
  datatype Params = Params(names: seq<string>, listeners: nat, queues: nat, hash: string -> nat)

  function Index(p: Params, name: string): (i: nat)
    requires p.queues > 0
    ensures i < p.queues
  {
    if p.queues == 1 then 0 else p.hash(name) % p.queues
  }

  /** Queue items: a connection's guard with `for_open` set or not, or no guard. */
  datatype Item = OpenItem(conn: Id) | CloseItem(conn: Id) | LostItem(name: string)

  predicate Known(p: Params, item: Item) {
    !item.LostItem? ==> item.conn < |p.names|
  }

  function NameOf(p: Params, item: Item): string
    requires Known(p, item)
  {
    if item.LostItem? then item.name else p.names[item.conn]
  }

  /** Where a thread is inside process_item; `next` counts listeners. */
  datatype Act =
    | Idle
    | Opening(conn: Id, next: nat)
    | Rolling(conn: Id, failed: nat, next: nat)
    | Closing(conn: Id, next: nat)
    | Losing(name: string, next: nat)

  datatype Worker = Worker(batch: seq<Item>, act: Act)

  datatype Mark = Ok | Threw | Shut
  datatype Call = Call(listener: nat, conn: Id, mark: Mark) | LostCall(listener: nat, name: string, threw: bool)

  datatype State = State(
    queues: seq<Queue<Item>>,
    workers: seq<Worker>,
    guards: seq<Guard.State>,
    failed: multiset<Id>,      // opens reported as failed, the report not yet handled by the strand
    accepted: seq<Item>,       // pushes that queues accepted
    taken: seq<Item>,          // items whose processing has begun
    trace: seq<Call>)          // listener callbacks

  function Start(p: Params): State {
    State(seq(p.queues, i => Queue([], false)), seq(p.queues, i => Worker([], Idle)),
          seq(|p.names|, c => Guard.None), multiset{}, [], [], [])
  }

  datatype Event =
    | Push(item: Item)
    | FinishQueue(queue: nat)
    | PopAll(queue: nat)
    | Take(queue: nat)
    | Callback(queue: nat, throws: bool)
    | EndItem(queue: nat)
    | Report(conn: Id)

  /** The connection that an act is about. */
  predicate About(act: Act, c: Id) {
    !act.Idle? && !act.Losing? && act.conn == c
  }

  ghost predicate Shaped(p: Params, s: State) {
    && p.queues > 0 && |s.queues| == |s.workers| == p.queues && |s.guards| == |p.names|
    && (forall i, c: Id :: 0 <= i < p.queues && About(s.workers[i].act, c) ==> c < |p.names|)
  }

  /** A callback is due. */
  predicate Calls(p: Params, act: Act) {
    match act
    case Idle => false
    case Opening(_, k) => k < p.listeners
    case Rolling(_, _, k) => k > 0
    case Closing(_, k) => k > 0
    case Losing(_, k) => k < p.listeners
  }

  predicate Enabled(p: Params, s: State, e: Event) {
    match e
    case Push(item) => p.queues > 0 && p.listeners > 0 && Known(p, item)
    case FinishQueue(i) => i < |s.queues|
    case PopAll(i) => i < |s.queues| && i < |s.workers| && s.workers[i] == Worker([], Idle)
                      && !s.queues[i].finished && s.queues[i].items != []
    case Take(i) => i < |s.workers| && s.workers[i].act.Idle? && s.workers[i].batch != []
                    && Known(p, s.workers[i].batch[0])
    case Callback(i, _) => i < |s.workers| && Calls(p, s.workers[i].act)
    case EndItem(i) => i < |s.workers| && !s.workers[i].act.Idle? && !Calls(p, s.workers[i].act)
    case Report(c) => c in s.failed
  }

  function Begin(p: Params, guards: seq<Guard.State>, item: Item): (r: (seq<Guard.State>, Act))
    requires |guards| == |p.names| && Known(p, item)
    ensures |r.0| == |guards|
  {
    match item
    case LostItem(name) => (guards, Losing(name, 0))
    case OpenItem(c) =>
      if guards[c].None? then (guards[c := guards[c].Open()], Opening(c, 0)) else (guards, Idle)
    case CloseItem(c) =>
      if guards[c].Ok? then (guards[c := guards[c].Close()], Closing(c, p.listeners)) else (guards, Idle)
  }

  function AfterCallback(p: Params, act: Act, throws: bool): (r: (Call, Act))
    requires Calls(p, act)
  {
    match act
    case Opening(c, k) =>
      if throws then (Call(k, c, Threw), Rolling(c, k, k)) else (Call(k, c, Ok), Opening(c, k + 1))
    case Rolling(c, f, k) => (Call(k - 1, c, Shut), Rolling(c, f, k - 1))
    case Closing(c, k) => (Call(k - 1, c, Shut), Closing(c, k - 1))
    case Losing(name, k) => (LostCall(k, name, throws), if throws then Idle else Losing(name, k + 1))
  }

  ghost function Step(p: Params, s: State, e: Event): (r: State)
    requires Shaped(p, s) && Enabled(p, s, e)
    ensures |r.queues| == |s.queues| && |r.workers| == |s.workers| && |r.guards| == |s.guards|
  {
    match e
    case Push(item) =>
      var i := Index(p, NameOf(p, item));
      State(s.queues[i := s.queues[i].AfterPush(item)], s.workers, s.guards, s.failed,
            if s.queues[i].finished then s.accepted else s.accepted + [item], s.taken, s.trace)
    case FinishQueue(i) =>
      State(s.queues[i := s.queues[i].AfterFinish()], s.workers, s.guards, s.failed, s.accepted, s.taken, s.trace)
    case PopAll(i) =>
      State(s.queues[i := Queue([], false)], s.workers[i := Worker(s.queues[i].items, Idle)],
            s.guards, s.failed, s.accepted, s.taken, s.trace)
    case Take(i) =>
      var w := s.workers[i];
      var (guards, act) := Begin(p, s.guards, w.batch[0]);
      State(s.queues, s.workers[i := Worker(w.batch[1..], act)], guards, s.failed,
            s.accepted, s.taken + [w.batch[0]], s.trace)
    case Callback(i, throws) =>
      var w := s.workers[i];
      var (call, act) := AfterCallback(p, w.act, throws);
      State(s.queues, s.workers[i := Worker(w.batch, act)], s.guards, s.failed,
            s.accepted, s.taken, s.trace + [call])
    case EndItem(i) =>
      var w := s.workers[i];
      var idle := s.workers[i := Worker(w.batch, Idle)];
      (match w.act
       case Opening(c, _) =>
         assert About(w.act, c);
         State(s.queues, idle, s.guards[c := s.guards[c].Commit()], s.failed, s.accepted, s.taken, s.trace)
       case Rolling(c, _, _) =>
         assert About(w.act, c);
         State(s.queues, idle, s.guards[c := s.guards[c].Cancel()], s.failed + multiset{c}, s.accepted, s.taken, s.trace)
       case _ => State(s.queues, idle, s.guards, s.failed, s.accepted, s.taken, s.trace))
    case Report(c) =>
      State(s.queues, s.workers, s.guards, s.failed - multiset{c}, s.accepted, s.taken, s.trace)
  }

  // ---- Selections of items and calls ----

  datatype Key = ByQueue(queue: nat) | ByName(name: string) | ByConn(conn: Id)

  predicate Matches(p: Params, key: Key, item: Item)
    requires p.queues > 0 && Known(p, item)
  {
    match key
    case ByQueue(i) => Index(p, NameOf(p, item)) == i
    case ByName(name) => NameOf(p, item) == name
    case ByConn(c) => !item.LostItem? && item.conn == c
  }

  ghost predicate AllKnown(p: Params, items: seq<Item>) {
    forall k :: 0 <= k < |items| ==> Known(p, items[k])
  }

  ghost function Select(p: Params, items: seq<Item>, key: Key): (r: seq<Item>)
    requires p.queues > 0 && AllKnown(p, items)
    ensures AllKnown(p, r)
  {
    if items == [] then []
    else
      var last := items[|items| - 1];
      Select(p, items[..|items| - 1], key) + if Matches(p, key, last) then [last] else []
  }

  lemma {:induction false} SelectAppend(p: Params, a: seq<Item>, b: seq<Item>, key: Key)
    requires p.queues > 0 && AllKnown(p, a) && AllKnown(p, b)
    ensures Select(p, a + b, key) == Select(p, a, key) + Select(p, b, key)
  {
    if b == [] {
      assert a + b == a;
    } else {
      assert (a + b)[..|a + b| - 1] == a + b[..|b| - 1];
      SelectAppend(p, a, b[..|b| - 1], key);
    }
  }

  lemma {:induction false} SelectTwice(p: Params, items: seq<Item>, outer: Key, inner: Key)
    requires p.queues > 0 && AllKnown(p, items)
    requires forall item: Item :: Known(p, item) && Matches(p, inner, item) ==> Matches(p, outer, item)
    ensures Select(p, Select(p, items, outer), inner) == Select(p, items, inner)
  {
    if items != [] {
      var init, last := items[..|items| - 1], items[|items| - 1];
      SelectTwice(p, init, outer, inner);
      SelectAppend(p, Select(p, init, outer), if Matches(p, outer, last) then [last] else [], inner);
      assert [last][..0] == [];
    }
  }

  /** What listener `l` was told about connection `c`. */
  function History(trace: seq<Call>, l: nat, c: Id): seq<Mark> {
    if trace == [] then []
    else
      var last := trace[|trace| - 1];
      History(trace[..|trace| - 1], l, c) +
      if last.Call? && last.listener == l && last.conn == c then [last.mark] else []
  }

  lemma HistoryAppend(trace: seq<Call>, call: Call)
    ensures forall l, c ::
      (History(trace + [call], l, c) ==
       History(trace, l, c) + if call.Call? && call.listener == l && call.conn == c then [call.mark] else [])
  {
    assert (trace + [call])[..|trace|] == trace;
  }
}
