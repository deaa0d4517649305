/** How requests go from the strand to the worker threads and back.
    Models library/threaded_handler_invoker.cpp over the queue of ThreadedQueue. */
module HandlerInvoker {
  import opened ThreadedQueue

  /** How one call of the user's handler ended. */
  datatype Verdict = Returned | HttpError(code: nat) | Failed(what: string) | Unknown

  const FinishErrorMsg := "finish"
  const UnknownErrorMsg := "unknown exception while invoking handler"

  /** A request on its way, with the error it picked up. */
  datatype Holder = Holder(id: nat, code: nat, msg: string) {
    function AfterHandler(v: Verdict): Holder {
      match v
      case Returned => this
      case HttpError(c) => Holder(id, c, msg)
      case Failed(what) => Holder(id, code, what)
      case Unknown => Holder(id, code, UnknownErrorMsg)
    }

    /** Which of the connection's two callbacks the holder calls. */
    function Answer(): Call {
      if code == 0 && msg == "" then Handled(id) else HandledErrors(id, code, msg)
    }
  }

  function NewHolder(id: nat): Holder {
    Holder(id, 0, "")
  }

  datatype Call = Handled(id: nat) | HandledErrors(id: nat, code: nat, msg: string)

  datatype Worker = Waiting | Busy(id: nat) | Left

  /** Requests are numbered in the order `push` accepts them. `taken`, `judged`, `answered`
      and `lost` are logs. */
  datatype State = State(
    queue: Queue<nat>,
    accepted: nat,
    workers: seq<Worker>,
    posted: seq<Holder>,         // handed to the strand and not yet run
    unhandled: seq<nat>,         // what wait_for_complete has still to answer
    taken: seq<nat>,
    judged: map<nat, Verdict>,
    answered: seq<Call>,
    lost: seq<nat>)

  function Start(threads: nat): State {
    State(Queue([], false), 0, seq(threads, _ => Waiting), [], [], [], map[], [], [])
  }

  datatype Event =
    | Push                           // invoke_handler on the strand
    | Pop(w: nat)                    // worker w past its wait
    | Work(w: nat, verdict: Verdict) // its handler call and the dispatch
    | Reply(k: nat)                  // the strand runs a dispatched item
    | Drop(k: nat)                   // or never does
    | Finish
    | Swap                           // wait_for_complete takes what is left
    | Complete(throws: bool)         // and answers it one by one

  predicate Enabled(s: State, e: Event) {
    match e
    case Pop(w) => w < |s.workers| && s.workers[w].Waiting? && s.queue.Ready()
    case Work(w, _) => w < |s.workers| && s.workers[w].Busy?
    case Reply(k) => k < |s.posted|
    case Drop(k) => k < |s.posted|
    case Swap => s.queue.finished && s.unhandled == []
    case Complete(_) => s.unhandled != []
    case Push => true
    case Finish => true
  }

  function Step(s: State, e: Event): State
    requires Enabled(s, e)
  {
    match e
    case Push =>
      if s.queue.finished then s else s.(queue := s.queue.AfterPush(s.accepted), accepted := s.accepted + 1)
    case Pop(w) => AfterPop(s, w)
    case Work(w, verdict) => AfterWork(s, w, verdict)
    case Reply(k) =>
      s.(posted := s.posted[..k] + s.posted[k + 1..], answered := s.answered + [s.posted[k].Answer()])
    case Drop(k) =>
      s.(posted := s.posted[..k] + s.posted[k + 1..], lost := s.lost + [s.posted[k].id])
    case Finish => s.(queue := s.queue.AfterFinish())
    case Swap =>
      s.(queue := Queue([], true), unhandled := s.queue.items, taken := s.taken + s.queue.items)
    case Complete(throws) => AfterComplete(s, throws)
  }

  function AfterPop(s: State, w: nat): State
    requires Enabled(s, Pop(w))
  {
    if s.queue.finished then s.(workers := s.workers[w := Left])
    else
      var id := s.queue.items[0];
      s.(queue := Queue(s.queue.items[1..], false), workers := s.workers[w := Busy(id)], taken := s.taken + [id])
  }

  function AfterWork(s: State, w: nat, verdict: Verdict): State
    requires Enabled(s, Work(w, verdict))
  {
    var id := s.workers[w].id;
    s.(workers := s.workers[w := Waiting],
       posted := s.posted + [NewHolder(id).AfterHandler(verdict)],
       judged := s.judged[id := verdict])
  }

  /** An exception from the connection ends the loop and drops the rest. */
  function AfterComplete(s: State, throws: bool): State
    requires Enabled(s, Complete(throws))
  {
    var rest := s.unhandled[1..];
    s.(answered := s.answered + [NewHolder(s.unhandled[0]).AfterHandler(Failed(FinishErrorMsg)).Answer()],
       unhandled := if throws then [] else rest,
       lost := s.lost + if throws then rest else [])
  }

  // Where requests are.

  function Upto(n: nat): (r: seq<nat>)
    ensures |r| == n && forall k :: 0 <= k < n ==> r[k] == k
  {
    seq(n, k => k)
  }

  function Occurs(ids: seq<nat>, id: nat): nat {
    if ids == [] then 0 else (if ids[0] == id then 1 else 0) + Occurs(ids[1..], id)
  }

  function Held(workers: seq<Worker>): seq<nat> {
    if workers == [] then []
    else (if workers[0].Busy? then [workers[0].id] else []) + Held(workers[1..])
  }

  function HolderIds(holders: seq<Holder>): (r: seq<nat>)
    ensures |r| == |holders|
  {
    seq(|holders|, k requires 0 <= k < |holders| => holders[k].id)
  }

  function CallIds(calls: seq<Call>): (r: seq<nat>)
    ensures |r| == |calls|
  {
    seq(|calls|, k requires 0 <= k < |calls| => calls[k].id)
  }

  /** How many of the places past the queue hold request `id`. */
  function Places(s: State, id: nat): nat {
    Occurs(Held(s.workers), id) + Occurs(HolderIds(s.posted), id) + Occurs(s.unhandled, id) +
    Occurs(CallIds(s.answered), id) + Occurs(s.lost, id)
  }

  lemma {:induction false} OccursAppend(a: seq<nat>, b: seq<nat>, id: nat)
    ensures Occurs(a + b, id) == Occurs(a, id) + Occurs(b, id)
  {
    if a == [] {
      assert a + b == b;
    } else {
      assert (a + b)[1..] == a[1..] + b;
      OccursAppend(a[1..], b, id);
    }
  }

  lemma {:induction false} OccursUpto(n: nat, id: nat)
    ensures Occurs(Upto(n), id) == if id < n then 1 else 0
    decreases n
  {
    if n > 0 {
      OccursUpto(n - 1, id);
      assert Upto(n) == Upto(n - 1) + [n - 1];
      OccursAppend(Upto(n - 1), [n - 1], id);
    }
  }

  lemma {:induction false} OccursAt(ids: seq<nat>, k: nat)
    requires k < |ids|
    ensures Occurs(ids, ids[k]) > 0
  {
    if k > 0 {
      OccursAt(ids[1..], k - 1);
    }
  }

  lemma {:induction false} HeldUpdate(workers: seq<Worker>, w: nat, next: Worker, id: nat)
    requires w < |workers|
    ensures Occurs(Held(workers[w := next]), id) + Occurs(Held([workers[w]]), id) ==
            Occurs(Held(workers), id) + Occurs(Held([next]), id)
  {
    var updated := workers[w := next];
    Heads(workers, id);
    Heads(updated, id);
    Heads([next], id);
    Heads([workers[w]], id);
    if w == 0 {
      assert updated[1..] == workers[1..];
    } else {
      assert updated[1..] == workers[1..][w - 1 := next];
      HeldUpdate(workers[1..], w - 1, next, id);
    }
  }

  lemma Heads(workers: seq<Worker>, id: nat)
    requires workers != []
    ensures Occurs(Held(workers), id) ==
            (if workers[0] == Busy(id) then 1 else 0) + Occurs(Held(workers[1..]), id)
  {
    OccursAppend(if workers[0].Busy? then [workers[0].id] else [], Held(workers[1..]), id);
  }

  lemma {:induction false} NobodyHolds(workers: seq<Worker>)
    requires forall w :: 0 <= w < |workers| ==> !workers[w].Busy?
    ensures Held(workers) == []
  {
    if workers != [] {
      NobodyHolds(workers[1..]);
    }
  }

  // The invariant.

  ghost predicate Fifo(s: State) {
    s.taken + s.queue.items == Upto(s.accepted)
  }

  ghost predicate Conserved(s: State) {
    forall id: nat :: Places(s, id) == Occurs(s.taken, id)
  }

  /** What the connection must be told about request `id`. */
  function Verdicted(judged: map<nat, Verdict>, id: nat): Call {
    if id in judged then NewHolder(id).AfterHandler(judged[id]).Answer()
    else HandledErrors(id, 0, FinishErrorMsg)
  }

  ghost predicate Truthful(s: State) {
    && (forall k :: 0 <= k < |s.posted| ==>
          var id := s.posted[k].id; id in s.judged && s.posted[k] == NewHolder(id).AfterHandler(s.judged[id]))
    && (forall k :: 0 <= k < |s.answered| ==> s.answered[k] == Verdicted(s.judged, s.answered[k].id))
  }

  /** Requests whose handler ran have left the queue, the workers and the closing loop. */
  ghost predicate JudgedLeft(s: State) {
    forall id :: id in s.judged ==> Settled(s, id)
  }

  ghost predicate Settled(s: State, id: nat) {
    Occurs(s.taken, id) > 0 && Occurs(Held(s.workers), id) == 0 && Occurs(s.unhandled, id) == 0
  }

  ghost predicate Inv(s: State) {
    Fifo(s) && Conserved(s) && Truthful(s) && JudgedLeft(s)
  }

  /** Every accepted request is in exactly one place. */
  lemma OnePlace(s: State, id: nat)
    requires Fifo(s) && Conserved(s)
    ensures Places(s, id) + Occurs(s.queue.items, id) == if id < s.accepted then 1 else 0
  {
    OccursUpto(s.accepted, id);
    OccursAppend(s.taken, s.queue.items, id);
  }

  lemma FifoKeeps(s: State, e: Event)
    requires Fifo(s) && Enabled(s, e)
    ensures Fifo(Step(s, e))
  {
    match e
    case Push =>
      assert s.taken + (s.queue.items + [s.accepted]) == (s.taken + s.queue.items) + [s.accepted];
    case Pop(w) =>
      if !s.queue.finished {
        assert (s.taken + [s.queue.items[0]]) + s.queue.items[1..] == s.taken + s.queue.items;
      }
    case Swap => assert (s.taken + s.queue.items) + [] == s.taken + s.queue.items;
    case _ =>
  }

  lemma PopMoves(s: State, w: nat, id: nat)
    requires Enabled(s, Pop(w))
    ensures var r := AfterPop(s, w);
      && Places(r, id) - Places(s, id) == Occurs(r.taken, id) - Occurs(s.taken, id)
      && Occurs(r.taken, id) >= Occurs(s.taken, id)
      && Occurs(Held(r.workers), id) - Occurs(Held(s.workers), id) == Occurs(r.taken, id) - Occurs(s.taken, id)
      && Occurs(r.taken, id) - Occurs(s.taken, id) <= Occurs(s.queue.items, id)
  {
    var r := AfterPop(s, w);
    HeldUpdate(s.workers, w, r.workers[w], id);
    Heads([s.workers[w]], id);
    Heads([r.workers[w]], id);
    if !s.queue.finished {
      OccursAppend(s.taken, [s.queue.items[0]], id);
    }
  }

  lemma PopKeeps(s: State, w: nat)
    requires Inv(s) && Enabled(s, Pop(w))
    ensures Inv(AfterPop(s, w))
  {
    FifoKeeps(s, Pop(w));
    forall id: nat ensures Places(AfterPop(s, w), id) == Occurs(AfterPop(s, w).taken, id) {
      PopMoves(s, w, id);
    }
    forall id | id in s.judged ensures Settled(AfterPop(s, w), id) {
      PopMoves(s, w, id);
      OnePlace(s, id);
    }
  }

  lemma WorkMoves(s: State, w: nat, verdict: Verdict, id: nat)
    requires Enabled(s, Work(w, verdict))
    ensures var r := AfterWork(s, w, verdict); var moved := if id == s.workers[w].id then 1 else 0;
      && Places(r, id) == Places(s, id)
      && Occurs(Held(r.workers), id) == Occurs(Held(s.workers), id) - moved
  {
    var r := AfterWork(s, w, verdict);
    HeldUpdate(s.workers, w, Waiting, id);
    Heads([s.workers[w]], id);
    Heads([Waiting], id);
    assert HolderIds(r.posted) == HolderIds(s.posted) + [s.workers[w].id];
    OccursAppend(HolderIds(s.posted), [s.workers[w].id], id);
  }

  /** The request a worker holds is nowhere else. */
  lemma HeldAlone(s: State, w: nat)
    requires Inv(s) && w < |s.workers| && s.workers[w].Busy?
    ensures var id := s.workers[w].id;
      && id !in s.judged && Occurs(Held(s.workers), id) == 1 && Occurs(s.taken, id) == 1
      && Occurs(s.unhandled, id) == 0 && Occurs(CallIds(s.answered), id) == 0
  {
    var id := s.workers[w].id;
    OnePlace(s, id);
    HeldUpdate(s.workers, w, Waiting, id);
    Heads([s.workers[w]], id);
    Heads([Waiting], id);
  }

  lemma WorkTruthful(s: State, w: nat, verdict: Verdict)
    requires Inv(s) && Enabled(s, Work(w, verdict))
    ensures Truthful(AfterWork(s, w, verdict))
  {
    HeldAlone(s, w);
    var r := AfterWork(s, w, verdict);
    forall k | 0 <= k < |s.answered| ensures r.answered[k] == Verdicted(r.judged, r.answered[k].id) {
      OccursAt(CallIds(s.answered), k);
    }
  }

  lemma WorkKeeps(s: State, w: nat, verdict: Verdict)
    requires Inv(s) && Enabled(s, Work(w, verdict))
    ensures Inv(AfterWork(s, w, verdict))
  {
    var r := AfterWork(s, w, verdict);
    WorkTruthful(s, w, verdict);
    HeldAlone(s, w);
    forall id: nat ensures Places(r, id) == Occurs(r.taken, id) {
      WorkMoves(s, w, verdict, id);
    }
    forall id | id in r.judged ensures Settled(r, id) {
      WorkMoves(s, w, verdict, id);
    }
  }

  lemma GoneMoves(s: State, e: Event, id: nat)
    requires (e.Reply? || e.Drop?) && Enabled(s, e)
    ensures Places(Step(s, e), id) == Places(s, id)
  {
    var r := Step(s, e);
    var before, after, gone := HolderIds(s.posted[..e.k]), HolderIds(s.posted[e.k + 1..]), s.posted[e.k].id;
    assert HolderIds(s.posted) == (before + [gone]) + after;
    assert HolderIds(r.posted) == before + after;
    OccursAppend(before + [gone], after, id);
    OccursAppend(before, [gone], id);
    OccursAppend(before, after, id);
    if e.Reply? {
      assert CallIds(r.answered) == CallIds(s.answered) + [gone];
      OccursAppend(CallIds(s.answered), [gone], id);
    } else {
      OccursAppend(s.lost, [gone], id);
    }
  }

  lemma GoneKeeps(s: State, e: Event)
    requires Inv(s) && (e.Reply? || e.Drop?) && Enabled(s, e)
    ensures Inv(Step(s, e))
  {
    forall id: nat ensures Places(Step(s, e), id) == Occurs(Step(s, e).taken, id) {
      GoneMoves(s, e, id);
    }
    assert forall id :: id in s.judged ==> Settled(s, id) ==> Settled(Step(s, e), id);
  }

  lemma SwapKeeps(s: State)
    requires Inv(s) && Enabled(s, Swap)
    ensures Inv(Step(s, Swap))
  {
    FifoKeeps(s, Swap);
    var r := Step(s, Swap);
    forall id: nat ensures Places(r, id) == Occurs(r.taken, id) {
      OccursAppend(s.taken, s.queue.items, id);
    }
    forall id | id in s.judged ensures Settled(r, id) {
      OccursAppend(s.taken, s.queue.items, id);
      OnePlace(s, id);
    }
  }

  lemma CompleteMoves(s: State, throws: bool, id: nat)
    requires Enabled(s, Complete(throws))
    ensures Places(AfterComplete(s, throws), id) == Places(s, id)
  {
    var first, rest := s.unhandled[0], s.unhandled[1..];
    assert CallIds(AfterComplete(s, throws).answered) == CallIds(s.answered) + [first];
    OccursAppend(CallIds(s.answered), [first], id);
    OccursAppend(s.lost, if throws then rest else [], id);
    OccursAppend([first], rest, id);
    assert s.unhandled == [first] + rest;
  }

  lemma CompleteKeeps(s: State, throws: bool)
    requires Inv(s) && Enabled(s, Complete(throws))
    ensures Inv(AfterComplete(s, throws))
  {
    var r := AfterComplete(s, throws);
    OccursAt(s.unhandled, 0);
    forall id: nat ensures Places(r, id) == Occurs(r.taken, id) {
      CompleteMoves(s, throws, id);
    }
    assert forall id :: id in s.judged ==> Settled(s, id) ==> Settled(r, id);
  }

  lemma StepKeeps(s: State, e: Event)
    requires Inv(s) && Enabled(s, e)
    ensures Inv(Step(s, e))
  {
    match e
    case Push => FifoKeeps(s, e);
    case Pop(w) => PopKeeps(s, w);
    case Work(w, verdict) => WorkKeeps(s, w, verdict);
    case Reply(_) => GoneKeeps(s, e);
    case Drop(_) => GoneKeeps(s, e);
    case Finish =>
    case Swap => SwapKeeps(s);
    case Complete(throws) => CompleteKeeps(s, throws);
  }

  ghost predicate Possible(s: State, events: seq<Event>)
    decreases |events|
  {
    events == [] || (Enabled(s, events[0]) && Possible(Step(s, events[0]), events[1..]))
  }

  ghost function Run(s: State, events: seq<Event>): State
    requires Possible(s, events)
    decreases |events|
  {
    if events == [] then s else Run(Step(s, events[0]), events[1..])
  }

  lemma {:induction false} RunKeeps(s: State, events: seq<Event>)
    requires Inv(s) && Possible(s, events)
    ensures Inv(Run(s, events))
    decreases |events|
  {
    if events != [] {
      StepKeeps(s, events[0]);
      RunKeeps(Step(s, events[0]), events[1..]);
    }
  }

  lemma {:induction false} StartKeeps(threads: nat)
    ensures Inv(Start(threads))
  {
    NobodyHolds(Start(threads).workers);
  }

  // What holds of whole runs.

  /** Requests leave the queue in push order, once each; nobody is answered twice. */
  lemma TakenAndAnsweredOnce(threads: nat, events: seq<Event>)
    requires Possible(Start(threads), events)
    ensures var s := Run(Start(threads), events);
      && s.taken + s.queue.items == Upto(s.accepted)
      && forall id: nat :: Occurs(CallIds(s.answered), id) <= (if id < s.accepted then 1 else 0)
  {
    StartKeeps(threads);
    RunKeeps(Start(threads), events);
    forall id: nat
      ensures Occurs(CallIds(Run(Start(threads), events).answered), id) <=
              (if id < Run(Start(threads), events).accepted then 1 else 0)
    {
      OnePlace(Run(Start(threads), events), id);
    }
  }

  /** Once no request is queued, held, on its way to the strand or in the closing loop, and
      none was dropped, each accepted request has been answered exactly once. */
  lemma AllAnswered(threads: nat, events: seq<Event>, id: nat)
    requires Possible(Start(threads), events)
    requires var s := Run(Start(threads), events);
      && s.queue.items == [] && s.posted == [] && s.unhandled == [] && s.lost == []
      && (forall w :: 0 <= w < |s.workers| ==> !s.workers[w].Busy?)
    ensures Occurs(CallIds(Run(Start(threads), events).answered), id) ==
            if id < Run(Start(threads), events).accepted then 1 else 0
  {
    var s := Run(Start(threads), events);
    StartKeeps(threads);
    RunKeeps(Start(threads), events);
    OnePlace(s, id);
    NobodyHolds(s.workers);
  }

  /** How many requests are pushed before `finish`. */
  function Offered(events: seq<Event>, open: bool): nat {
    if events == [] || !open then 0
    else (if events[0].Push? then 1 else 0) + Offered(events[1..], !events[0].Finish?)
  }

  predicate NoneDropped(events: seq<Event>) {
    forall k :: 0 <= k < |events| ==> !events[k].Drop? && events[k] != Complete(true)
  }

  /** Workers leave, and the closing loop runs, only once the queue has finished. */
  ghost predicate Staffed(s: State) {
    !s.queue.finished ==> s.unhandled == [] && forall w :: 0 <= w < |s.workers| ==> !s.workers[w].Left?
  }

  lemma StepStaffed(s: State, e: Event)
    requires Staffed(s) && Enabled(s, e)
    ensures Staffed(Step(s, e)) && |Step(s, e).workers| == |s.workers|
    ensures Step(s, e).queue.finished == (s.queue.finished || e.Finish?)
    ensures Step(s, e).accepted == s.accepted + if e.Push? && !s.queue.finished then 1 else 0
    ensures !e.Drop? && e != Complete(true) ==> Step(s, e).lost == s.lost
  {
  }

  lemma {:induction false} RunStaffed(s: State, events: seq<Event>)
    requires Staffed(s) && Possible(s, events)
    ensures Staffed(Run(s, events)) && |Run(s, events).workers| == |s.workers|
    ensures Run(s, events).accepted == s.accepted + Offered(events, !s.queue.finished)
    ensures NoneDropped(events) ==> Run(s, events).lost == s.lost
    decreases |events|
  {
    if events != [] {
      StepStaffed(s, events[0]);
      RunStaffed(Step(s, events[0]), events[1..]);
      if s.queue.finished { NothingOffered(events[1..]); }
    }
  }

  lemma NothingOffered(events: seq<Event>)
    ensures Offered(events, false) == 0
  {
  }

  /** Everything pushed before `finish` is accepted; nothing is lost unless the strand drops it or
      a connection throws in the closing loop; and until `finish`, with threads at all, something
      can go on for as long as some accepted request is unanswered. */
  lemma NobodyIsForgotten(threads: nat, events: seq<Event>)
    requires Possible(Start(threads), events)
    ensures var s := Run(Start(threads), events);
      && s.accepted == Offered(events, true)
      && (NoneDropped(events) ==> s.lost == [])
      && (threads > 0 && !s.queue.finished && NoneDropped(events) && |s.answered| < s.accepted ==>
            exists e: Event :: (e.Pop? || e.Work? || e.Reply?) && Enabled(s, e))
  {
    var s := Run(Start(threads), events);
    RunStaffed(Start(threads), events);
    StartKeeps(threads);
    RunKeeps(Start(threads), events);
    if threads > 0 && !s.queue.finished && NoneDropped(events) && |s.answered| < s.accepted {
      if s.posted != [] {
        assert Enabled(s, Reply(0));
      } else if w :| 0 <= w < |s.workers| && s.workers[w].Busy? {
        assert Enabled(s, Work(w, Returned));
      } else if s.queue.items != [] {
        assert s.workers[0].Waiting?;
        assert Enabled(s, Pop(0));
      } else {
        AllAnsweredCount(s);
      }
    }
  }

  /** Nothing pending means as many answers as requests. */
  lemma AllAnsweredCount(s: State)
    requires Inv(s) && s.queue.items == [] && s.posted == [] && s.unhandled == [] && s.lost == []
    requires forall w :: 0 <= w < |s.workers| ==> !s.workers[w].Busy?
    ensures |s.answered| >= s.accepted
  {
    NobodyHolds(s.workers);
    forall id: nat | id < s.accepted ensures Occurs(CallIds(s.answered), id) > 0 {
      OnePlace(s, id);
    }
    ManyAnswers(CallIds(s.answered), s.accepted);
  }

  lemma {:induction false} ManyAnswers(ids: seq<nat>, n: nat)
    requires forall id: nat :: id < n ==> Occurs(ids, id) > 0
    ensures |ids| >= n
    decreases n
  {
    if n > 0 {
      var k := Position(ids, n - 1);
      var rest := ids[..k] + ids[k + 1..];
      forall id: nat | id < n - 1 ensures Occurs(rest, id) > 0 {
        OccursAppend(ids[..k], [ids[k]] + ids[k + 1..], id);
        OccursAppend([ids[k]], ids[k + 1..], id);
        OccursAppend(ids[..k], ids[k + 1..], id);
        assert ids == ids[..k] + ([ids[k]] + ids[k + 1..]);
      }
      ManyAnswers(rest, n - 1);
    }
  }

  lemma {:induction false} Position(ids: seq<nat>, id: nat) returns (k: nat)
    requires Occurs(ids, id) > 0
    ensures k < |ids| && ids[k] == id
  {
    if ids[0] == id {
      k := 0;
    } else {
      k := Position(ids[1..], id);
      k := k + 1;
    }
  }

  /** A connection is told of success exactly when its handler returned, or threw something
      that leaves neither a code nor a message; and it is never told of an error without one. */
  lemma ToldTheVerdict(threads: nat, events: seq<Event>, k: nat)
    requires Possible(Start(threads), events) && k < |Run(Start(threads), events).answered|
    ensures var s := Run(Start(threads), events); var call := s.answered[k];
      && (call.Handled? <==>
          call.id in s.judged && s.judged[call.id] in {Returned, HttpError(0), Failed("")})
      && (call.HandledErrors? ==> call.code != 0 || call.msg != "")
      && (call.HandledErrors? && call.id in s.judged ==>
            match s.judged[call.id] {
              case Returned => false
              case HttpError(code) => call.code == code && call.msg == ""
              case Failed(what) => call.code == 0 && call.msg == what
              case Unknown => call.code == 0 && call.msg == "unknown exception while invoking handler"
            })
      && (call.id !in s.judged ==> call == HandledErrors(call.id, 0, "finish"))
  {
    StartKeeps(threads);
    RunKeeps(Start(threads), events);
    var s := Run(Start(threads), events);
    assert s.answered[k] == Verdicted(s.judged, s.answered[k].id);
  }

  /** A handler that fails with an empty message is reported as a success. */
  lemma SilentFailure() returns (events: seq<Event>)
    ensures Possible(Start(1), events) && Work(0, Failed("")) in events
    ensures Run(Start(1), events).answered == [Handled(0)]
  {
    events := [Push, Pop(0), Work(0, Failed("")), Reply(0)];
    var s := Start(1);
    var s1 := Step(s, events[0]);
    var s2 := Step(s1, events[1]);
    var s3 := Step(s2, events[2]);
    var s4 := Step(s3, events[3]);
    assert events[1..] == [Pop(0), Work(0, Failed("")), Reply(0)];
    assert events[1..][1..] == [Work(0, Failed("")), Reply(0)];
    assert events[1..][1..][1..] == [Reply(0)];
    assert events[1..][1..][1..][1..] == [];
    assert s3.posted == [NewHolder(0)];
    assert Possible(s4, []) && Run(s4, []) == s4;
    assert Possible(s3, [Reply(0)]) && Run(s3, [Reply(0)]) == s4;
    assert Possible(s2, events[1..][1..]) && Run(s2, events[1..][1..]) == s4;
    assert Possible(s1, events[1..]) && Run(s1, events[1..]) == s4;
  }

  /** After the swap of `wait_for_complete` the queue stays empty and nothing more is accepted. */
  lemma {:induction false} EmptyForEver(s: State, events: seq<Event>)
    requires Enabled(s, Swap) && Possible(Step(s, Swap), events)
    ensures var t := Run(Step(s, Swap), events);
      t.queue == Queue([], true) && t.accepted == s.accepted && t.taken == s.taken + s.queue.items
  {
    EmptyStays(Step(s, Swap), events);
  }

  lemma {:induction false} EmptyStays(s: State, events: seq<Event>)
    requires s.queue == Queue([], true) && Possible(s, events)
    ensures var t := Run(s, events); t.queue == s.queue && t.accepted == s.accepted && t.taken == s.taken
    decreases |events|
  {
    if events != [] {
      assert s.taken + [] == s.taken;
      EmptyStays(Step(s, events[0]), events[1..]);
    }
  }

  // The objects.

  class RequestHolder {
    const id: nat
    var code: nat
    var msg: string

    function View(): Holder
      reads this
    {
      Holder(id, code, msg)
    }

    constructor (id: nat)
      ensures View() == NewHolder(id)
    {
      this.id, code, msg := id, 0, "";
    }

    method SetErrorMsg(text: string)
      modifies this`msg
      ensures msg == text
    {
      msg := text;
    }

    method SetHttpErrorCode(value: nat)
      modifies this`code
      ensures code == value
    {
      code := value;
    }

    method HandledBy() returns (call: Call)
      ensures call == View().Answer()
    {
      if code == 0 && msg == "" {
        return Handled(id);
      }
      return HandledErrors(id, code, msg);
    }
  }

  function Finished(holder: Holder): Call {
    Holder(holder.id, holder.code, FinishErrorMsg).Answer()
  }

  datatype Invoked = Queued | Forbidden | Refused

  class Invoker {
    const queue: ThreadedQueue<RequestHolder>
    var next: nat
    ghost var answered: seq<Call>

    constructor ()
      ensures fresh(queue) && queue.View() == Queue([], false) && answered == [] && next == 0
    {
      queue := new ThreadedQueue();
      next, answered := 0, [];
    }

    /** Throws `forbidden` or, once finished, a runtime error. */
    method InvokeHandler(hasEnoughData: bool) returns (r: Invoked)
      modifies this`next, queue
      ensures r == if !hasEnoughData then Forbidden else if old(queue.finished) then Refused else Queued
      ensures queue.finished == old(queue.finished)
      ensures !r.Queued? ==> queue.View() == old(queue.View()) && next == old(next)
      ensures r.Queued? ==> |queue.items| == |old(queue.items)| + 1 && queue.items[..|old(queue.items)|] == old(queue.items)
      ensures r.Queued? ==> fresh(queue.items[|old(queue.items)|])
      ensures r.Queued? ==> queue.items[|old(queue.items)|].View() == NewHolder(old(next)) && next == old(next) + 1
    {
      if !hasEnoughData {
        return Forbidden;
      }
      var holder := new RequestHolder(next);
      var ok := queue.Push(holder);
      if !ok {
        return Refused;
      }
      next := next + 1;
      return Queued;
    }

    /** One turn of a worker's loop, past the wait; `verdict` is what the handler will do. */
    method ThreadTurn(verdict: Verdict) returns (popped: Popped<RequestHolder>)
      requires queue.View().Ready()
      modifies queue, set h <- queue.items
      ensures popped.Nothing? == old(queue.finished) && queue.finished == old(queue.finished)
      ensures popped.Nothing? ==> queue.items == old(queue.items)
      ensures popped.Item? ==> popped.item == old(queue.items)[0] && queue.items == old(queue.items)[1..]
      ensures popped.Item? ==> popped.item.View() == old(queue.items[0].View()).AfterHandler(verdict)
      ensures forall h :: h in old(queue.items) && (popped.Item? ==> h != popped.item) ==> h.View() == old(h.View())
    {
      popped := queue.Pop();
      if popped.Item? {
        match verdict {
          case Returned =>
          case HttpError(code) => popped.item.SetHttpErrorCode(code);
          case Failed(what) => popped.item.SetErrorMsg(what);
          case Unknown => popped.item.SetErrorMsg(UnknownErrorMsg);
        }
      }
    }

    /** `last` is the number of holders answered before the connection throws, or all of them. */
    method WaitForComplete(last: nat)
      requires last <= |queue.items|
      modifies this`answered, queue, set h <- queue.items
      ensures queue.View() == Queue([], true)
      ensures answered == old(answered) +
              seq(last, k requires 0 <= k < last <= |old(queue.items)| => old(Finished(queue.items[k].View())))
    {
      queue.Finish();
      var unhandled := queue.SwapData([]);
      assert unhandled == old(queue.items);
      for k := 0 to last
        invariant queue.View() == Queue([], true)
        invariant forall h :: h in unhandled ==> h.code == old(h.code)
        invariant |answered| == |old(answered)| + k && answered[..|old(answered)|] == old(answered)
        invariant forall j :: 0 <= j < k ==> answered[|old(answered)| + j] == old(Finished(queue.items[j].View()))
      {
        unhandled[k].SetErrorMsg(FinishErrorMsg);
        var call := unhandled[k].HandledBy();
        answered := answered + [call];
      }
    }
  }
}
