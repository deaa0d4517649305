/** The loops that call every listener, as the object that runs them, and their agreement with
    the step-by-step acts of the protocol. Models library/compound_listener.cpp. */
module CompoundListener {
  import opened Notification
  import opened NotificationInvariant
  import opened Sequences

  /** Closing the `k` first listeners, last first. */
  function CloseCalls(c: Id, k: nat): seq<Call> {
    if k == 0 then [] else [Call(k - 1, c, Shut)] + CloseCalls(c, k - 1)
  }

  /** Opening from listener `k` on; `throws[l]` says whether listener `l` throws. */
  function OpenCalls(c: Id, k: nat, throws: seq<bool>): seq<Call>
    requires k <= |throws|
    decreases |throws| - k
  {
    if k == |throws| then []
    else if throws[k] then [Call(k, c, Threw)] + CloseCalls(c, k)
    else [Call(k, c, Ok)] + OpenCalls(c, k + 1, throws)
  }

  function LostCalls(name: string, k: nat, throws: seq<bool>): seq<Call>
    requires k <= |throws|
    decreases |throws| - k
  {
    if k == |throws| then []
    else if throws[k] then [LostCall(k, name, true)]
    else [LostCall(k, name, false)] + LostCalls(name, k + 1, throws)
  }

  class Listeners {
    const count: nat
    var log: seq<Call>

    constructor (count: nat)
      ensures this.count == count && log == []
    {
      this.count := count;
      log := [];
    }

    method Invoke(call: Call)
      modifies this
      ensures log == old(log) + [call]
    {
      log := log + [call];
    }

    method NotifyConnectionOpened(c: Id, throws: seq<bool>) returns (threw: bool)
      requires |throws| == count
      modifies this
      ensures log == old(log) + OpenCalls(c, 0, throws)
      ensures threw <==> true in throws
    {
      var it := 0;
      while it != count
        invariant it <= count && forall i :: 0 <= i < it ==> !throws[i]
        invariant log + OpenCalls(c, it, throws) == old(log) + OpenCalls(c, 0, throws)
        decreases count - it
      {
        if throws[it] {
          Assoc(log, [Call(it, c, Threw)], CloseCalls(c, it));
          Invoke(Call(it, c, Threw));
          var k := it;
          while k != 0
            invariant log + CloseCalls(c, k) == old(log) + OpenCalls(c, 0, throws)
          {
            k := k - 1;
            Assoc(log, [Call(k, c, Shut)], CloseCalls(c, k));
            Invoke(Call(k, c, Shut));
          }
          return true;
        }
        Assoc(log, [Call(it, c, Ok)], OpenCalls(c, it + 1, throws));
        Invoke(Call(it, c, Ok));
        it := it + 1;
      }
      return false;
    }

    method NotifyConnectionClosed(c: Id)
      modifies this
      ensures log == old(log) + CloseCalls(c, count)
    {
      var k := count;
      while k != 0
        invariant log + CloseCalls(c, k) == old(log) + CloseCalls(c, count)
      {
        k := k - 1;
        Invoke(Call(k, c, Shut));
      }
    }

    method NotifyDisconnected(name: string, throws: seq<bool>) returns (threw: bool)
      requires |throws| == count
      modifies this
      ensures log == old(log) + LostCalls(name, 0, throws)
      ensures threw <==> true in throws
    {
      var it := 0;
      while it != count
        invariant it <= count && forall i :: 0 <= i < it ==> !throws[i]
        invariant log + LostCalls(name, it, throws) == old(log) + LostCalls(name, 0, throws)
        decreases count - it
      {
        Invoke(LostCall(it, name, throws[it]));
        if throws[it] {
          return true;
        }
        it := it + 1;
      }
      return false;
    }
  }

  lemma HistoryConcat(a: seq<Call>, b: seq<Call>, l: nat, c: Id)
    ensures History(a + b, l, c) == History(a, l, c) + History(b, l, c)
  {
    if b == [] {
      assert a + b == a;
    } else {
      assert (a + b)[..|a + b| - 1] == a + b[..|b| - 1];
      HistoryConcat(a, b[..|b| - 1], l, c);
    }
  }

  lemma HistoryOne(call: Call, l: nat, c: Id)
    ensures History([call], l, c) == if call.Call? && call.listener == l && call.conn == c then [call.mark] else []
  {
    assert [call][..0] == [];
  }

  lemma HistoryCons(call: Call, rest: seq<Call>, l: nat, c: Id)
    ensures History([call] + rest, l, c) ==
            (if call.Call? && call.listener == l && call.conn == c then [call.mark] else []) + History(rest, l, c)
  {
    HistoryConcat([call], rest, l, c);
    HistoryOne(call, l, c);
  }

  /** Every listener is closed exactly once, whatever is thrown, the last one first. */
  lemma {:induction false} CloseVisitsAll(c: Id, n: nat)
    ensures |CloseCalls(c, n)| == n
    ensures forall i :: 0 <= i < n ==> CloseCalls(c, n)[i] == Call(n - 1 - i, c, Shut)
    ensures forall l: nat :: History(CloseCalls(c, n), l, c) == if l < n then [Shut] else []
  {
    if n > 0 {
      CloseVisitsAll(c, n - 1);
    }
    forall l: nat ensures History(CloseCalls(c, n), l, c) == if l < n then [Shut] else [] {
      CloseHistory(c, n, l);
    }
  }

  lemma CloseOneMore(c: Id, n: nat, l: nat)
    requires n > 0
    ensures History(CloseCalls(c, n), l, c) == (if l == n - 1 then [Shut] else []) + History(CloseCalls(c, n - 1), l, c)
  {
    HistoryCons(Call(n - 1, c, Shut), CloseCalls(c, n - 1), l, c);
  }

  lemma {:induction false} CloseHistory(c: Id, n: nat, l: nat)
    ensures History(CloseCalls(c, n), l, c) == if l < n then [Shut] else []
  {
    if n > 0 {
      CloseHistory(c, n - 1, l);
      CloseOneMore(c, n, l);
    }
  }

  /** The first listener from `k` on that throws, or the number of listeners. */
  function FirstThrower(throws: seq<bool>, k: nat): (f: nat)
    requires k <= |throws|
    ensures k <= f <= |throws| && (forall i :: k <= i < f ==> !throws[i]) && (f < |throws| ==> throws[f])
    decreases |throws| - k
  {
    if k == |throws| || throws[k] then k else FirstThrower(throws, k + 1)
  }

  /** What listener `l` hears when the open runs from listener `k` on. */
  function Heard(k: nat, throws: seq<bool>, l: nat): seq<Mark>
    requires k <= |throws|
  {
    var f := FirstThrower(throws, k);
    if f < |throws| then if l < k then [Shut] else RolledBack(l, f)
    else if k <= l < |throws| then [Ok] else []
  }

  lemma {:induction false} OpenFrom(c: Id, k: nat, throws: seq<bool>, l: nat)
    requires k <= |throws|
    ensures History(OpenCalls(c, k, throws), l, c) == Heard(k, throws, l)
    decreases |throws| - k, 1
  {
    if k < |throws| {
      if throws[k] { OpenStops(c, k, throws, l); } else { OpenGoesOn(c, k, throws, l); }
    }
  }

  lemma OpenStops(c: Id, k: nat, throws: seq<bool>, l: nat)
    requires k < |throws| && throws[k]
    ensures History(OpenCalls(c, k, throws), l, c) == Heard(k, throws, l)
  {
    HistoryCons(Call(k, c, Threw), CloseCalls(c, k), l, c);
    CloseVisitsAll(c, k);
  }

  lemma OpenGoesOn(c: Id, k: nat, throws: seq<bool>, l: nat)
    requires k < |throws| && !throws[k]
    ensures History(OpenCalls(c, k, throws), l, c) == Heard(k, throws, l)
    decreases |throws| - k, 0
  {
    HistoryCons(Call(k, c, Ok), OpenCalls(c, k + 1, throws), l, c);
    OpenFrom(c, k + 1, throws, l);
  }

  /** All or nothing: without a thrower every listener ends up open; otherwise exactly those
      before the first thrower were opened, and each of them was closed again. */
  lemma OpenAllOrNothing(c: Id, throws: seq<bool>, l: nat)
    requires l < |throws|
    ensures History(OpenCalls(c, 0, throws), l, c) ==
            if true in throws then RolledBack(l, FirstThrower(throws, 0)) else [Ok]
  {
    OpenFrom(c, 0, throws, l);
    var f := FirstThrower(throws, 0);
    if f < |throws| { assert throws[f] in throws; }
  }

  /** A `disconnected` is told to the listeners in order, up to and including the first that throws. */
  lemma {:induction false} LostToFirstThrower(name: string, k: nat, throws: seq<bool>)
    requires k <= |throws|
    ensures var f := FirstThrower(throws, k); var calls := LostCalls(name, k, throws);
      && |calls| == (if f < |throws| then f + 1 - k else |throws| - k)
      && forall j :: 0 <= j < |calls| ==> calls[j] == LostCall(k + j, name, throws[k + j])
    decreases |throws| - k
  {
    if k < |throws| && !throws[k] { LostToFirstThrower(name, k + 1, throws); }
  }

  /** The calls a thread makes from `act` on when it is not disturbed. */
  function Remaining(act: Act, n: nat): nat {
    match act
    case Idle => 0
    case Opening(_, k) => if k < n then 2 * (n - k) + n + 1 else 0
    case Rolling(_, _, k) => k
    case Closing(_, k) => k
    case Losing(_, k) => if k < n then n - k else 0
  }

  function ActCalls(p: Params, act: Act, throws: seq<bool>): seq<Call>
    requires |throws| == p.listeners && (act.Rolling? ==> act.next <= p.listeners)
    decreases Remaining(act, p.listeners)
  {
    if !Calls(p, act) then []
    else
      var threw := (act.Opening? || act.Losing?) && throws[act.next];
      [AfterCallback(p, act, threw).0] + ActCalls(p, AfterCallback(p, act, threw).1, throws)
  }

  lemma {:induction false} RollingCalls(p: Params, act: Act, throws: seq<bool>)
    requires |throws| == p.listeners && (act.Rolling? || act.Closing?) && act.next <= p.listeners
    ensures ActCalls(p, act, throws) == CloseCalls(act.conn, act.next)
    decreases act.next
  {
    if act.next > 0 { RollingCalls(p, AfterCallback(p, act, false).1, throws); }
  }

  /** The protocol's steps make the calls of the compound open, in the same order. */
  lemma {:induction false} StepsAreOpen(p: Params, c: Id, k: nat, throws: seq<bool>)
    requires |throws| == p.listeners && k <= p.listeners
    ensures ActCalls(p, Opening(c, k), throws) == OpenCalls(c, k, throws)
    decreases p.listeners - k
  {
    if k < p.listeners {
      if throws[k] { RollingCalls(p, Rolling(c, k, k), throws); } else { StepsAreOpen(p, c, k + 1, throws); }
    }
  }

  /** ... and of the compound close. */
  lemma StepsAreClose(p: Params, c: Id, throws: seq<bool>)
    requires |throws| == p.listeners
    ensures ActCalls(p, Closing(c, p.listeners), throws) == CloseCalls(c, p.listeners)
  {
    RollingCalls(p, Closing(c, p.listeners), throws);
  }
}
