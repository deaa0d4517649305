/** How messages get from any thread to the strand: pushed under a lock, then a pop is posted.
    Models library/message_queue.cpp. The two queues are symmetric; a step names one by kind. */
module MessageQueue {
  import opened Messages
  import opened Sequences

  datatype Letter = ToName(name: string, message: Mail) | ToId(id: nat, message: Mail)
  datatype Kind = ByName | ById

  function KindOf(letter: Letter): Kind {
    if letter.ToName? then ByName else ById
  }

  /** A letter taken off the queue, and whether the manager's `send` took it without throwing. */
  datatype Handled = Handled(letter: Letter, sent: bool)

  datatype Lane = Lane(
    queue: seq<Letter>,
    senders: nat,            // threads between their push and their post
    posts: nat,              // pops posted to the strand and not yet run
    accepted: seq<Letter>,
    handled: seq<Handled>)

  datatype Strand = Free | Draining(kind: Kind, batch: seq<Letter>)

  datatype State = State(name: Lane, id: Lane, accepting: bool, strand: Strand)
  {
    function At(k: Kind): Lane {
      if k.ByName? then name else id
    }

    function With(k: Kind, lane: Lane): (r: State)
      ensures r.At(k) == lane && r.accepting == accepting && r.strand == strand
      ensures forall j :: j != k ==> r.At(j) == At(j)
    {
      if k.ByName? then State(lane, id, accepting, strand) else State(name, lane, accepting, strand)
    }

    function In(now: Strand): State {
      State(name, id, accepting, now)
    }
  }

  const Start: State := State(Lane([], 0, 0, [], []), Lane([], 0, 0, [], []), true, Free)

  datatype Event =
    | Push(letter: Letter)     // push_message
    | Post(kind: Kind)         // strand_.post of the pop
    | BeginPop(kind: Kind)     // the pop's swap under the lock
    | Deliver(throws: bool)    // one manager_->send of the running pop
    | EndPop
    | Finish

  predicate Enabled(s: State, e: Event) {
    match e
    case Push(_) => true
    case Post(k) => s.At(k).senders > 0
    case BeginPop(k) => s.strand.Free? && s.At(k).posts > 0
    case Deliver(_) => s.strand.Draining? && s.strand.batch != []
    case EndPop => s.strand.Draining? && s.strand.batch == []
    case Finish => true
  }

  function Mark(letters: seq<Letter>, sent: bool): (r: seq<Handled>)
    ensures |r| == |letters|
  {
    seq(|letters|, k requires 0 <= k < |letters| => Handled(letters[k], sent))
  }

  function Step(s: State, e: Event): State
    requires Enabled(s, e)
  {
    match e
    case Push(letter) => Pushed(s, letter)
    case Post(k) =>
      var l := s.At(k);
      s.With(k, Lane(l.queue, l.senders - 1, l.posts + 1, l.accepted, l.handled))
    case BeginPop(k) =>
      var l := s.At(k);
      s.With(k, Lane([], l.senders, l.posts - 1, l.accepted, l.handled)).In(Draining(k, l.queue))
    case Deliver(throws) => Delivered(s, throws)
    case EndPop => s.In(Free)
    case Finish => State(s.name, s.id, false, s.strand)
  }

  function Pushed(s: State, letter: Letter): State {
    var k := KindOf(letter);
    var l := s.At(k);
    if !s.accepting then s
    else s.With(k, Lane(l.queue + [letter], l.senders + 1, l.posts, l.accepted + [letter], l.handled))
  }

  /** An exception ends the loop: the rest of the batch is dropped with the letter that threw. */
  function Delivered(s: State, throws: bool): State
    requires Enabled(s, Deliver(throws))
  {
    var k, batch := s.strand.kind, s.strand.batch;
    var l := s.At(k);
    var done := if throws then batch else batch[..1];
    s.With(k, Lane(l.queue, l.senders, l.posts, l.accepted, l.handled + Mark(done, !throws)))
     .In(if throws then Free else Draining(k, batch[1..]))
  }

  function Letters(handled: seq<Handled>): (r: seq<Letter>)
    ensures |r| == |handled|
  {
    seq(|handled|, k requires 0 <= k < |handled| => handled[k].letter)
  }

  function BatchOf(s: State, k: Kind): seq<Letter> {
    if s.strand.Draining? && s.strand.kind == k then s.strand.batch else []
  }

  /** Accepted letters are handled, in the running batch, or queued: in push order, once each.
      For every queued letter a pop is on its way. */
  ghost predicate LaneInv(s: State, k: Kind)
  {
    var l := s.At(k);
    && l.accepted == Letters(l.handled) + BatchOf(s, k) + l.queue
    && l.senders + l.posts >= |l.queue|
    && (forall j :: 0 <= j < |l.accepted| ==> KindOf(l.accepted[j]) == k)
  }

  ghost predicate Inv(s: State) {
    LaneInv(s, ByName) && LaneInv(s, ById)
  }

  lemma LettersAppend(a: seq<Handled>, b: seq<Handled>)
    ensures Letters(a + b) == Letters(a) + Letters(b)
  {
  }

  lemma LettersMark(letters: seq<Letter>, sent: bool)
    ensures Letters(Mark(letters, sent)) == letters
  {
  }

  lemma DeliverKeeps(s: State, throws: bool)
    requires Inv(s) && Enabled(s, Deliver(throws))
    ensures Inv(Delivered(s, throws))
  {
    var k, batch := s.strand.kind, s.strand.batch;
    var done := if throws then batch else batch[..1];
    var t := Delivered(s, throws);
    LettersMark(done, !throws);
    LettersAppend(s.At(k).handled, Mark(done, !throws));
    assert Letters(t.At(k).handled) == Letters(s.At(k).handled) + done;
    assert done + BatchOf(t, k) == batch;
    Assoc(Letters(s.At(k).handled), done, BatchOf(t, k));
    assert LaneInv(t, k);
    var other := if k.ByName? then ById else ByName;
    assert t.At(other) == s.At(other);
    assert LaneInv(t, other);
  }

  lemma PushKeeps(s: State, letter: Letter)
    requires Inv(s)
    ensures Inv(Pushed(s, letter))
  {
    var k := KindOf(letter);
    var l := s.At(k);
    var before := Letters(l.handled) + BatchOf(s, k);
    assert before + (l.queue + [letter]) == (before + l.queue) + [letter];
  }

  lemma StepKeeps(s: State, e: Event)
    requires Inv(s) && Enabled(s, e)
    ensures Inv(Step(s, e))
  {
    match e
    case Deliver(throws) => DeliverKeeps(s, throws);
    case Push(letter) => PushKeeps(s, letter);
    case BeginPop(k) =>
      var l := s.At(k);
      assert Letters(l.handled) + [] + l.queue == Letters(l.handled) + l.queue + [];
    case _ =>
  }

  ghost predicate Possible(s: State, events: seq<Event>)
    decreases |events|
  {
    events == [] || (Enabled(s, events[0]) && Possible(Step(s, events[0]), events[1..]))
  }

  ghost function Run(s: State, events: seq<Event>): State
    requires Possible(s, events)
    decreases |events|
  {
    if events == [] then s else Run(Step(s, events[0]), events[1..])
  }

  lemma {:induction false} RunKeeps(s: State, events: seq<Event>)
    requires Inv(s) && Possible(s, events)
    ensures Inv(Run(s, events))
    decreases |events|
  {
    if events != [] {
      StepKeeps(s, events[0]);
      RunKeeps(Step(s, events[0]), events[1..]);
    }
  }

  /** No lost wakeup: in every run, when no pop is posted or about to be and the strand is
      free, everything accepted has been handled, in push order and once each. */
  lemma NoLostWakeup(events: seq<Event>, k: Kind)
    requires Possible(Start, events)
    ensures var l := Run(Start, events).At(k);
      && l.senders + l.posts >= |l.queue|
      && Letters(l.handled) <= l.accepted
      && (l.senders == 0 && l.posts == 0 && Run(Start, events).strand.Free? ==> Letters(l.handled) == l.accepted)
  {
    RunKeeps(Start, events);
    var s := Run(Start, events);
    assert LaneInv(s, k);
    assert Letters(s.At(k).handled) + [] + [] == Letters(s.At(k).handled);
  }

  predicate NoThrow(events: seq<Event>) {
    forall j :: 0 <= j < |events| ==> events[j] != Deliver(true)
  }

  predicate AllSent(handled: seq<Handled>) {
    forall j :: 0 <= j < |handled| ==> handled[j].sent
  }

  /** Without a throwing send nothing is dropped. */
  lemma {:induction false} AllDelivered(s: State, events: seq<Event>, k: Kind)
    requires Inv(s) && Possible(s, events) && NoThrow(events) && AllSent(s.At(k).handled)
    ensures Inv(Run(s, events)) && AllSent(Run(s, events).At(k).handled)
    decreases |events|
  {
    if events != [] {
      StepKeeps(s, events[0]);
      assert events[0] != Deliver(true);
      AllDelivered(Step(s, events[0]), events[1..], k);
    }
  }

  /** The letters of one kind that are pushed before `finish`, in order. */
  function Offered(events: seq<Event>, accepting: bool, k: Kind): seq<Letter> {
    if events == [] || !accepting then []
    else
      (if events[0].Push? && KindOf(events[0].letter) == k then [events[0].letter] else []) +
      Offered(events[1..], !events[0].Finish?, k)
  }

  lemma {:induction false} AcceptsOffered(s: State, events: seq<Event>, k: Kind)
    requires Possible(s, events)
    ensures Run(s, events).At(k).accepted == s.At(k).accepted + Offered(events, s.accepting, k)
    decreases |events|
  {
    if events == [] {
      assert s.At(k).accepted + [] == s.At(k).accepted;
    } else {
      var t, e := Step(s, events[0]), events[0];
      var first := if s.accepting && e.Push? && KindOf(e.letter) == k then [e.letter] else [];
      AcceptsOffered(t, events[1..], k);
      StepAccepts(s, e, k);
      Assoc(s.At(k).accepted, first, Offered(events[1..], t.accepting, k));
    }
  }

  lemma StepAccepts(s: State, e: Event, k: Kind)
    requires Enabled(s, e)
    ensures Step(s, e).accepting == (s.accepting && !e.Finish?)
    ensures Step(s, e).At(k).accepted ==
            s.At(k).accepted + if s.accepting && e.Push? && KindOf(e.letter) == k then [e.letter] else []
  {
  }

  /** From the start, when no send throws: what has been handled was sent, and is a prefix of what
      was pushed before `finish`, in order and once each; and all of it once nothing is posted or
      about to be and the strand is free. */
  lemma SentOnce(events: seq<Event>, k: Kind)
    requires Possible(Start, events) && NoThrow(events)
    ensures var s := Run(Start, events); var l := s.At(k);
      && AllSent(l.handled)
      && Letters(l.handled) <= Offered(events, true, k)
      && (l.senders == 0 && l.posts == 0 && s.strand.Free? ==> Letters(l.handled) == Offered(events, true, k))
  {
    AllDelivered(Start, events, k);
    NoLostWakeup(events, k);
    AcceptedIsOffered(events, k);
  }

  lemma AcceptedIsOffered(events: seq<Event>, k: Kind)
    requires Possible(Start, events)
    ensures Run(Start, events).At(k).accepted == Offered(events, true, k)
  {
    AcceptsOffered(Start, events, k);
    FrontFirst([], Offered(events, true, k));
  }

  /** After `finish` nothing more is accepted, and what was accepted is still handled or on its way. */
  lemma {:induction false} FinishRefuses(s: State, events: seq<Event>, k: Kind)
    requires Inv(s) && !s.accepting && Possible(s, events)
    ensures var t := Run(s, events);
      && Inv(t) && !t.accepting && t.At(k).accepted == s.At(k).accepted
      && Letters(t.At(k).handled) + BatchOf(t, k) + t.At(k).queue == s.At(k).accepted
    decreases |events|
  {
    if events != [] {
      StepKeeps(s, events[0]);
      FinishRefuses(Step(s, events[0]), events[1..], k);
    }
  }

  /** What one whole pop makes of its batch; `throws[j]` says whether the send of letter `j` throws. */
  function Popped(batch: seq<Letter>, throws: seq<bool>): seq<Handled>
    requires |throws| == |batch|
  {
    if batch == [] then []
    else if throws[0] then Mark(batch, false)
    else Mark(batch[..1], true) + Popped(batch[1..], throws[1..])
  }

  /** It takes every letter of the batch, and sends those before the first that throws. */
  lemma {:induction false} PoppedExact(batch: seq<Letter>, throws: seq<bool>)
    requires |throws| == |batch|
    ensures var r := Popped(batch, throws);
      && Letters(r) == batch
      && forall j :: 0 <= j < |r| ==> (r[j].sent <==> forall i :: 0 <= i <= j ==> !throws[i])
  {
    if batch != [] && !throws[0] {
      PoppedExact(batch[1..], throws[1..]);
      var r := Popped(batch, throws);
      assert r[0] == Handled(batch[0], true) && r[1..] == Popped(batch[1..], throws[1..]);
      forall j | 0 <= j < |r| ensures r[j].letter == batch[j] && (r[j].sent <==> forall i :: 0 <= i <= j ==> !throws[i]) {
        if j > 0 {
          assert r[j] == r[1..][j - 1] && Letters(r[1..])[j - 1] == batch[j];
          assert forall i :: 0 < i <= j ==> throws[i] == throws[1..][i - 1];
        }
      }
    }
  }

  /** The object: two queues and a flag under a mutex, and the sends it made. */
  class Queue {
    var byName: seq<Letter>
    var byId: seq<Letter>
    var accepting: bool
    ghost var handled: seq<Handled>

    constructor ()
      ensures accepting && byName == [] && byId == [] && handled == []
    {
      byName, byId, accepting, handled := [], [], true, [];
    }

    method PushMessage(letter: Letter) returns (ok: bool)
      modifies this`byName, this`byId
      ensures ok == accepting
      ensures byName == old(byName) + if accepting && letter.ToName? then [letter] else []
      ensures byId == old(byId) + if accepting && letter.ToId? then [letter] else []
    {
      if accepting {
        if letter.ToName? {
          byName := byName + [letter];
        } else {
          byId := byId + [letter];
        }
      }
      return accepting;
    }

    method Pop(kind: Kind, throws: seq<bool>)
      requires |throws| == |if kind.ByName? then byName else byId|
      modifies this
      ensures accepting == old(accepting)
      ensures byName == (if kind.ByName? then [] else old(byName))
      ensures byId == (if kind.ByName? then old(byId) else [])
      ensures handled == old(handled) + Popped(if kind.ByName? then old(byName) else old(byId), throws)
    {
      var batch: seq<Letter> := [];
      if kind.ByName? {
        batch, byName := byName, batch;
      } else {
        batch, byId := byId, batch;
      }
      Drain(batch, throws);
    }

    method Drain(batch: seq<Letter>, throws: seq<bool>)
      requires |throws| == |batch|
      modifies this`handled
      ensures handled == old(handled) + Popped(batch, throws)
    {
      for j := 0 to |batch|
        invariant handled + Popped(batch[j..], throws[j..]) == old(handled) + Popped(batch, throws)
      {
        if throws[j] {
          handled := handled + Mark(batch[j..], false);
          return;
        }
        assert batch[j..][1..] == batch[j + 1..] && throws[j..][1..] == throws[j + 1..];
        assert batch[j..][..1] == [batch[j]];
        handled := handled + Mark([batch[j]], true);
      }
    }

    method FinishAccepting()
      modifies this`accepting
      ensures !accepting
    {
      accepting := false;
    }
  }

  /** The deliveries of a pop, one at a time. */
  ghost function Deliveries(s: State, throws: seq<bool>): State
    requires s.strand.Draining? && |throws| == |s.strand.batch|
    decreases |throws|
  {
    if throws == [] then Step(s, EndPop)
    else if throws[0] then Step(s, Deliver(true))
    else Deliveries(Step(s, Deliver(false)), throws[1..])
  }

  /** The protocol's deliveries add up to what the object's loop does. */
  lemma {:induction false} DeliveriesArePop(s: State, throws: seq<bool>)
    requires s.strand.Draining? && |throws| == |s.strand.batch|
    ensures var t := Deliveries(s, throws); var k := s.strand.kind;
      && t.strand.Free?
      && t.At(k).handled == s.At(k).handled + Popped(s.strand.batch, throws)
      && t.At(k).queue == s.At(k).queue
    decreases |throws|
  {
    if throws != [] && !throws[0] {
      DeliveriesArePop(Step(s, Deliver(false)), throws[1..]);
    }
  }
}
