/** Strand and server runs seen from one connection: its part of the run is a run of its own, in
    which the sends are what the manager's sends addressed to it. So what is proved of the runs
    of a connection, down to what its client decodes, holds inside every run of the server. */
module Delivery {
  import opened Messages
  import opened ChannelsStat
  import opened Sequences
  import C = ConnectionSpec
  import CR = ConnectionRuns
  import CV = ClientView
  import CI = ConnectionInvariant
  import L = Lifetime
  import S = StrandSpec
  import SI = StrandInvariant
  import SR = StrandRuns
  import Server
  import WebSocket
  import Chunks
  import WireStream

  // ---- One step ----

  /** What a strand step is for connection `c`. */
  function Part(p: S.Setup, w: S.World, e: S.Event, c: S.Id): seq<C.Event>
    requires |w.conns| == |p.cfgs|
  {
    match e
    case Own(d, ce) => if d == c then [ce] else []
    case OpenFailed(to, d) =>
      if d == c && !w.finished && c in w.registry.byId && c < |p.cfgs| && p.cfgs[c].name == to then [C.Close] else []
    case FinishManager(_, now) =>
      if !w.finished && c in w.registry.byId then [C.Send(Finish, now), C.Close] else []
    case _ =>
      if Posts(p, w, e, c) then [C.Send(e.m.For(c), e.now)] else []
  }

  /** A message that the manager lets connection `c` have: registered, of the name or the id that
      the message is for, and willing to take it. */
  predicate Posts(p: S.Setup, w: S.World, e: S.Event, c: S.Id)
    requires |w.conns| == |p.cfgs|
  {
    match e
    case SendByName(to, m, passing, _) => !w.finished && SR.Addressed(p, w, c, to, m, passing)
    case SendById(d, m, passing, _) =>
      !w.finished && d == c && c < |p.cfgs| && SR.Addressed(p, w, c, p.cfgs[c].name, m, passing)
    case _ => false
  }

  /** What a strand step adds to the mail of connection `c`; the shutdown adds the null message. */
  function Letters(p: S.Setup, w: S.World, e: S.Event, c: S.Id): seq<Entry>
    requires |w.conns| == |p.cfgs|
  {
    if Posts(p, w, e, c) then [e.m.For(c)]
    else if e.FinishManager? && !w.finished && c in w.registry.byId then [Finish]
    else []
  }

  lemma One(cfg: C.Config, s: C.Conn, e: C.Event)
    requires s.Enabled(e)
    ensures C.Possible(cfg, s, [e]) && C.Run(cfg, s, [e]) == s.Step(cfg, e)
  {
    assert [e][1..] == [];
  }

  lemma Two(cfg: C.Config, s: C.Conn, d: C.Event, e: C.Event)
    requires s.Enabled(d) && s.Step(cfg, d).Enabled(e)
    ensures C.Possible(cfg, s, [d, e]) && C.Run(cfg, s, [d, e]) == s.Step(cfg, d).Step(cfg, e)
  {
    assert [d, e][1..] == [e];
    One(cfg, s.Step(cfg, d), e);
  }

  lemma {:induction false} SendAllConn(p: S.Setup, w: S.World, ids: seq<S.Id>, m: Mail, now: int, c: S.Id)
    requires |w.conns| == |p.cfgs| && S.Known(p, ids) && Distinct(ids) && c < |p.cfgs|
    ensures S.SendAll(p, w, ids, m, now).conns[c] ==
            if c in ids then w.conns[c].OnSend(p.cfgs[c], m.For(c), now) else w.conns[c]
  {
    if ids != [] {
      var init, last := ids[..|ids| - 1], ids[|ids| - 1];
      assert ids == init + [last];
      assert last !in init;
      SendAllConn(p, w, init, m, now, c);
      SendToConn(p, S.SendAll(p, w, init, m, now), last, m.For(last), now, c);
    }
  }

  lemma SendToConn(p: S.Setup, w: S.World, d: S.Id, entry: Entry, now: int, c: S.Id)
    requires |w.conns| == |p.cfgs| && d < |p.cfgs| && c < |p.cfgs|
    ensures S.SendTo(p, w, d, entry, now).conns[c] ==
            if c == d then w.conns[c].OnSend(p.cfgs[c], entry, now) else w.conns[c]
  {
  }

  lemma FinishOneConn(p: S.Setup, w: S.World, d: S.Id, now: int, c: S.Id)
    requires |w.conns| == |p.cfgs| && d < |p.cfgs| && c < |p.cfgs|
    ensures S.CloseOne(p, S.SendTo(p, w, d, Finish, now), d).conns[c] ==
            if c == d then w.conns[c].OnSend(p.cfgs[c], Finish, now).Cleanup(p.cfgs[c]) else w.conns[c]
  {
    SendToConn(p, w, d, Finish, now, c);
    SendToConn(p, w, d, Finish, now, d);
  }

  lemma {:induction false} FinishAllConn(p: S.Setup, w: S.World, order: seq<S.Id>, now: int, c: S.Id)
    requires |w.conns| == |p.cfgs| && S.Known(p, order) && Distinct(order) && c < |p.cfgs|
    ensures S.FinishAll(p, w, order, now).conns[c] ==
            if c in order then w.conns[c].OnSend(p.cfgs[c], Finish, now).Cleanup(p.cfgs[c]) else w.conns[c]
  {
    if order != [] {
      var init, last := order[..|order| - 1], order[|order| - 1];
      assert order == init + [last];
      assert last !in init;
      FinishAllConn(p, w, init, now, c);
      FinishOneConn(p, S.FinishAll(p, w, init, now), last, now, c);
    }
  }

  /** An order of a set visits every member once. */
  lemma OrderDistinct(order: seq<S.Id>, ids: set<S.Id>)
    requires multiset(order) == multiset(ids)
    ensures Distinct(order) && forall c :: c in order <==> c in ids
  {
    forall i, j | 0 <= i < j < |order| ensures order[i] != order[j] {
      assert order == order[..j] + order[j..];
      assert order[i] in multiset(order[..j]) && order[j] in multiset(order[j..]);
      assert multiset(order)[order[i]] == multiset(ids)[order[i]] == 1;
    }
    forall c ensures c in order <==> c in ids {
      assert c in multiset(order) <==> c in multiset(ids);
    }
  }

  lemma SendByNameConn(p: S.Setup, w: S.World, to: string, m: Mail, passing: set<S.Id>, now: int, c: S.Id)
    requires SI.IndexesAgree(p, w.registry) && S.WellFormed(p, w) && c < |p.cfgs|
    ensures S.AfterSendByName(p, w, to, m, passing, now).conns[c] ==
            if !w.finished && SR.Addressed(p, w, c, to, m, passing)
            then w.conns[c].OnSend(p.cfgs[c], m.For(c), now) else w.conns[c]
  {
    var ids := w.registry.Named(to);
    SR.TargetsExact(p, ids, m, passing);
    if !w.finished && ids != [] {
      SendAllConn(p, w, S.Targets(p, ids, m, passing), m, now, c);
    }
  }

  lemma SendByIdConn(p: S.Setup, w: S.World, d: S.Id, m: Mail, passing: set<S.Id>, now: int, c: S.Id)
    requires S.WellFormed(p, w) && c < |p.cfgs|
    ensures S.AfterSendById(p, w, d, m, passing, now).conns[c] ==
            if !w.finished && d == c && SR.Addressed(p, w, c, p.cfgs[c].name, m, passing)
            then w.conns[c].OnSend(p.cfgs[c], m.For(c), now) else w.conns[c]
  {
    if !w.finished && d in w.registry.byId {
      SR.TargetsExact(p, [d], m, passing);
      SendAllConn(p, w, S.Targets(p, [d], m, passing), m, now, c);
    }
  }

  lemma FinishConn(p: S.Setup, w: S.World, order: seq<S.Id>, now: int, c: S.Id)
    requires |w.conns| == |p.cfgs| && S.Known(p, order) && c < |p.cfgs| && multiset(order) == multiset(w.registry.byId)
    ensures S.AfterFinish(p, w, order, now).conns[c] ==
            if !w.finished && c in w.registry.byId
            then w.conns[c].OnSend(p.cfgs[c], Finish, now).Cleanup(p.cfgs[c]) else w.conns[c]
  {
    if !w.finished {
      OrderDistinct(order, w.registry.byId);
      FinishAllConn(p, S.World(w.conns, S.Registry({}, map[]), true, w.stat, w.fired), order, now, c);
    }
  }

  /** A strand step moves each connection by its part of the step. */
  lemma StepParts(p: S.Setup, w: S.World, e: S.Event, c: S.Id)
    requires SI.IndexesAgree(p, w.registry) && S.WellFormed(p, w) && S.Enabled(p, w, e) && c < |p.cfgs|
    ensures C.Possible(p.cfgs[c], w.conns[c], Part(p, w, e, c))
    ensures S.Step(p, w, e).conns[c] == C.Run(p.cfgs[c], w.conns[c], Part(p, w, e, c))
  {
    var cfg, s := p.cfgs[c], w.conns[c];
    match e
    case Own(d, ce) => if d == c { One(cfg, s, ce); }
    case SendByName(to, m, passing, now) =>
      SendByNameConn(p, w, to, m, passing, now, c);
      One(cfg, s, C.Send(m.For(c), now));
    case SendById(d, m, passing, now) =>
      SendByIdConn(p, w, d, m, passing, now, c);
      One(cfg, s, C.Send(m.For(c), now));
    case OpenFailed(_, d) => if d == c { One(cfg, s, C.Close); }
    case FinishManager(order, now) =>
      assert forall k :: 0 <= k < |order| ==> order[k] in multiset(order);
      FinishConn(p, w, order, now, c);
      Two(cfg, s, C.Send(Finish, now), C.Close);
  }

  lemma SendsFront(e: C.Event, rest: seq<C.Event>)
    ensures CR.Sends([e] + rest) == (if e.Send? then [e.entry] else []) + CR.Sends(rest)
  {
    assert ([e] + rest)[1..] == rest;
  }

  lemma PartSends(p: S.Setup, w: S.World, e: S.Event, c: S.Id)
    requires |w.conns| == |p.cfgs| && S.Enabled(p, w, e)
    ensures CR.Sends(Part(p, w, e, c)) == Letters(p, w, e, c)
  {
    var part := Part(p, w, e, c);
    if part != [] { SendsFront(part[0], part[1..]); }
    if |part| == 2 { SendsFront(part[1], []); }
  }

  // ---- Whole runs ----

  /** The part of connection `c` in a run. */
  ghost function Parts(p: S.Setup, w: S.World, events: seq<S.Event>, c: S.Id): seq<C.Event>
    requires SR.Possible(p, w, events)
    decreases |events|
  {
    if events == [] then []
    else Part(p, w, events[0], c) + Parts(p, S.Step(p, w, events[0]), events[1..], c)
  }

  /** The mail of connection `c` in a run: everything that the manager's sends addressed to it. */
  ghost function MailOf(p: S.Setup, w: S.World, events: seq<S.Event>, c: S.Id): seq<Entry>
    requires SR.Possible(p, w, events)
    decreases |events|
  {
    if events == [] then []
    else Letters(p, w, events[0], c) + MailOf(p, S.Step(p, w, events[0]), events[1..], c)
  }

  lemma RunFront(cfg: C.Config, s: C.Conn, e: C.Event, rest: seq<C.Event>)
    requires s.Enabled(e) && C.Possible(cfg, s.Step(cfg, e), rest)
    ensures C.Possible(cfg, s, [e] + rest) && C.Run(cfg, s, [e] + rest) == C.Run(cfg, s.Step(cfg, e), rest)
  {
    assert ([e] + rest)[1..] == rest;
  }

  lemma {:induction false} RunAppend(cfg: C.Config, s: C.Conn, a: seq<C.Event>, b: seq<C.Event>)
    requires C.Possible(cfg, s, a) && C.Possible(cfg, C.Run(cfg, s, a), b)
    ensures C.Possible(cfg, s, a + b) && C.Run(cfg, s, a + b) == C.Run(cfg, C.Run(cfg, s, a), b)
    decreases |a|
  {
    FrontFirst(a, b);
    if a != [] {
      var next := s.Step(cfg, a[0]);
      RunAppend(cfg, next, a[1..], b);
      RunFront(cfg, s, a[0], a[1..] + b);
    }
  }

  lemma {:induction false} SendsAppend(a: seq<C.Event>, b: seq<C.Event>)
    ensures CR.Sends(a + b) == CR.Sends(a) + CR.Sends(b)
  {
    FrontFirst(a, b);
    if a != [] {
      SendsAppend(a[1..], b);
      SendsFront(a[0], a[1..] + b);
      Assoc(if a[0].Send? then [a[0].entry] else [], CR.Sends(a[1..]), CR.Sends(b));
    }
  }

  lemma {:induction false} PartsRun(p: S.Setup, w: S.World, events: seq<S.Event>, c: S.Id)
    requires SI.StrandInv(p, w) && SR.Possible(p, w, events) && c < |p.cfgs|
    ensures C.Possible(p.cfgs[c], w.conns[c], Parts(p, w, events, c))
    ensures SR.Run(p, w, events).conns[c] == C.Run(p.cfgs[c], w.conns[c], Parts(p, w, events, c))
    ensures CR.Sends(Parts(p, w, events, c)) == MailOf(p, w, events, c)
    decreases |events|
  {
    if events != [] {
      var next := S.Step(p, w, events[0]);
      var part, rest := Part(p, w, events[0], c), Parts(p, next, events[1..], c);
      SI.StepKeeps(p, w, events[0]);
      StepParts(p, w, events[0], c);
      PartsRun(p, next, events[1..], c);
      RunAppend(p.cfgs[c], w.conns[c], part, rest);
      PartSends(p, w, events[0], c);
      SendsAppend(part, rest);
    }
  }

  /** Inside a run of the strand every connection makes a run of its own; what it is sent there is
      its mail. */
  lemma RunsOfItsOwn(p: S.Setup, now: int, events: seq<S.Event>, c: S.Id)
    requires SI.Sane(p) && SR.Possible(p, S.Start(p, now), events) && c < |p.cfgs|
    ensures var cfg := p.cfgs[c]; var es := Parts(p, S.Start(p, now), events, c);
      && C.Possible(cfg, C.Start(cfg, now), es)
      && SR.Run(p, S.Start(p, now), events).conns[c] == C.Run(cfg, C.Start(cfg, now), es)
      && CR.Sends(es) == MailOf(p, S.Start(p, now), events, c)
  {
    SR.StartKeeps(p, now);
    PartsRun(p, S.Start(p, now), events, c);
  }

  /** In every run of the strand, a WebSocket client that got the headers decodes what the
      manager's sends addressed to its connection, up to some point and with nothing but pings
      in between; all of it when the connection is up and not writing. */
  lemma SocketClientGetsMail(p: S.Setup, now: int, events: seq<S.Event>, c: S.Id)
    requires SI.Sane(p) && SR.Possible(p, S.Start(p, now), events) && c < |p.cfgs|
    requires p.cfgs[c].transport.Framed? && C.HeadersOut in SR.Run(p, S.Start(p, now), events).conns[c].output
    ensures var s := SR.Run(p, S.Start(p, now), events).conns[c];
      s.output != [] && var d := WebSocket.Decoded(WireStream.Wire(p.cfgs[c], WireStream.Middle(s.output)));
      d.Some? && CV.Received(p.cfgs[c], s, MailOf(p, S.Start(p, now), events, c), d.value)
  {
    RunsOfItsOwn(p, now, events, c);
    CV.SocketClientGetsSent(p.cfgs[c], now, Parts(p, S.Start(p, now), events, c));
  }

  /** And so does a plain client that reads the chunks. */
  lemma ChunkClientGetsMail(p: S.Setup, now: int, events: seq<S.Event>, c: S.Id, rest: string)
    requires SI.Sane(p) && SR.Possible(p, S.Start(p, now), events) && c < |p.cfgs|
    requires p.cfgs[c].transport.Chunked? && C.HeadersOut in SR.Run(p, S.Start(p, now), events).conns[c].output
    ensures var s := SR.Run(p, S.Start(p, now), events).conns[c];
      s.output != [] &&
      var ending := if C.LastOut in s.output then rest else Chunks.LastChunk + rest;
      var d := Chunks.ReadBody(WireStream.Wire(p.cfgs[c], s.output[1..]) + ending);
      d.Some? && d.value.1 == rest && CV.Received(p.cfgs[c], s, MailOf(p, S.Start(p, now), events, c), d.value.0)
  {
    RunsOfItsOwn(p, now, events, c);
    CV.ChunkClientGetsSent(p.cfgs[c], now, Parts(p, S.Start(p, now), events, c), rest);
  }

  /** `es` is the part of connection `c` in the run. */
  ghost predicate IsPart(p: S.Setup, now: int, events: seq<S.Event>, c: S.Id, es: seq<C.Event>) {
    SR.Possible(p, S.Start(p, now), events) && es == Parts(p, S.Start(p, now), events, c)
  }

  /** Its headers are written, and nothing in its part ends the connection. */
  ghost predicate Undisturbed(cfg: C.Config, now: int, es: seq<C.Event>) {
    && C.Possible(cfg, C.Start(cfg, now), es) && L.Uninterrupted(cfg, C.Start(cfg, now), es)
    && exists k :: 0 <= k < |es| && es[k].HeadersWritten?
  }

  /** Up, and whenever no write is outstanding all the mail has been written. */
  ghost predicate Serves(s: C.Conn, mail: seq<Entry>) {
    && s.connected && s.open && C.LastOut !in s.output
    && (s.pendingWrites == [] ==>
          !s.writing && CI.Printable(mail) && CI.TextsOf(s.output) == Texts(mail))
  }

  /** As long as nothing in its part ends it, a connection is up and gets all its mail: sends
      to others, and what becomes of them, do not disturb it. */
  lemma UndisturbedServes(p: S.Setup, now: int, events: seq<S.Event>, c: S.Id, es: seq<C.Event>)
    requires SI.Sane(p) && c < |p.cfgs| && IsPart(p, now, events, c, es) && Undisturbed(p.cfgs[c], now, es)
    ensures Serves(SR.Run(p, S.Start(p, now), events).conns[c], MailOf(p, S.Start(p, now), events, c))
  {
    RunsOfItsOwn(p, now, events, c);
    L.UpWritesAll(p.cfgs[c], now, es);
  }

  // ---- The server ----

  /** The strand's side of a server event. */
  function OnStrand(p: Server.Setup, e: Server.Event): seq<S.Event> {
    match e
    case Strand(se) => [se]
    case Thread(_) => []
    case FailedOpen(c) => if c < |p.strand.cfgs| then [S.OpenFailed(p.strand.cfgs[c].name, c)] else []
  }

  function AllOnStrand(p: Server.Setup, events: seq<Server.Event>): seq<S.Event> {
    if events == [] then []
    else AllOnStrand(p, events[..|events| - 1]) + OnStrand(p, events[|events| - 1])
  }

  lemma StrandFront(p: S.Setup, w: S.World, e: S.Event, rest: seq<S.Event>, c: S.Id)
    requires S.WellFormed(p, w) && S.Enabled(p, w, e) && SR.Possible(p, S.Step(p, w, e), rest)
    ensures SR.Possible(p, w, [e] + rest) && SR.Run(p, w, [e] + rest) == SR.Run(p, S.Step(p, w, e), rest)
    ensures MailOf(p, w, [e] + rest, c) == Letters(p, w, e, c) + MailOf(p, S.Step(p, w, e), rest, c)
  {
    assert ([e] + rest)[1..] == rest;
  }

  lemma {:induction false} StrandAppend(p: S.Setup, w: S.World, events: seq<S.Event>, more: seq<S.Event>, c: S.Id)
    requires SR.Possible(p, w, events) && SR.Possible(p, SR.Run(p, w, events), more)
    ensures SR.Possible(p, w, events + more)
    ensures SR.Run(p, w, events + more) == SR.Run(p, SR.Run(p, w, events), more)
    ensures MailOf(p, w, events + more, c) == MailOf(p, w, events, c) + MailOf(p, SR.Run(p, w, events), more, c)
    decreases |events|
  {
    FrontFirst(events, more);
    if events != [] {
      var next, rest := S.Step(p, w, events[0]), events[1..];
      StrandAppend(p, next, rest, more, c);
      StrandFront(p, w, events[0], rest + more, c);
      Assoc(Letters(p, w, events[0], c), MailOf(p, next, rest, c), MailOf(p, SR.Run(p, w, events), more, c));
    }
  }

  /** What one server event adds to the mail of connection `c`. */
  function LettersOf(p: Server.Setup, w: S.World, e: Server.Event, c: S.Id): seq<Entry>
    requires |w.conns| == |p.strand.cfgs|
  {
    if e.Strand? then Letters(p.strand, w, e.step, c) else []
  }

  /** Every state has all the connections. */
  ghost predicate Complete(p: Server.Setup, states: seq<Server.State>) {
    forall k :: 0 <= k < |states| ==> |states[k].world.conns| == |p.strand.cfgs|
  }

  /** The mail of connection `c` in the first `k` events of a server run. */
  ghost function MailUpTo(p: Server.Setup, states: seq<Server.State>, events: seq<Server.Event>, k: nat, c: S.Id): seq<Entry>
    requires Complete(p, states) && k <= |events| < |states|
  {
    if k == 0 then []
    else MailUpTo(p, states, events, k - 1, c) + LettersOf(p, states[k - 1].world, events[k - 1], c)
  }

  lemma TurnOnStrand(p: Server.Setup, s: Server.State, e: Server.Event, t: Server.State, c: S.Id)
    requires Server.Turn(p, s, e, t) && Server.Shaped(p, t)
    ensures SR.Possible(p.strand, s.world, OnStrand(p, e))
    ensures t.world == SR.Run(p.strand, s.world, OnStrand(p, e))
    ensures MailOf(p.strand, s.world, OnStrand(p, e), c) == LettersOf(p, s.world, e, c)
  {
    var moves := OnStrand(p, e);
    if moves != [] { StrandFront(p.strand, s.world, moves[0], [], c); }
  }

  lemma RunShaped(p: Server.Setup, now: int, states: seq<Server.State>, events: seq<Server.Event>, k: nat)
    requires Server.Sound(p) && Server.IsRun(p, now, states, events) && k <= |events|
    ensures Server.Shaped(p, states[k])
  {
    Server.RunKeeps(p, now, states, events, k);
  }

  lemma RunsComplete(p: Server.Setup, now: int, states: seq<Server.State>, events: seq<Server.Event>)
    requires Server.Sound(p) && Server.IsRun(p, now, states, events)
    ensures Complete(p, states)
  {
    forall k | 0 <= k < |states| ensures |states[k].world.conns| == |p.strand.cfgs| {
      RunShaped(p, now, states, events, k);
    }
  }

  /** The strand run `moves` leads to `w`, with that mail for connection `c`. */
  ghost predicate Leads(p: S.Setup, now: int, moves: seq<S.Event>, w: S.World, c: S.Id, mail: seq<Entry>) {
    && SR.Possible(p, S.Start(p, now), moves)
    && w == SR.Run(p, S.Start(p, now), moves)
    && mail == MailOf(p, S.Start(p, now), moves, c)
  }

  lemma TurnLeads(p: Server.Setup, now: int, moves: seq<S.Event>, s: Server.State, e: Server.Event, t: Server.State,
                  c: S.Id, mail: seq<Entry>)
    requires Server.Turn(p, s, e, t) && Server.Shaped(p, t) && Leads(p.strand, now, moves, s.world, c, mail)
    ensures Leads(p.strand, now, moves + OnStrand(p, e), t.world, c, mail + LettersOf(p, s.world, e, c))
  {
    TurnOnStrand(p, s, e, t, c);
    StrandAppend(p.strand, S.Start(p.strand, now), moves, OnStrand(p, e), c);
  }

  lemma AllUpTo(p: Server.Setup, events: seq<Server.Event>, k: nat)
    requires k < |events|
    ensures AllOnStrand(p, events[..k + 1]) == AllOnStrand(p, events[..k]) + OnStrand(p, events[k])
  {
    assert events[..k + 1][..k] == events[..k];
  }

  lemma StartLeads(p: Server.Setup, now: int, c: S.Id)
    requires Server.Sound(p)
    ensures Leads(p.strand, now, [], S.Start(p.strand, now), c, [])
  {
    SR.StartKeeps(p.strand, now);
  }

  /** The strand in a server run makes a run of the strand, with the same mail. */
  lemma {:induction false} StrandRun(p: Server.Setup, now: int, states: seq<Server.State>, events: seq<Server.Event>,
                                     k: nat, c: S.Id)
    requires Server.Sound(p) && Server.IsRun(p, now, states, events) && k <= |events| && Complete(p, states)
    ensures Leads(p.strand, now, AllOnStrand(p, events[..k]), states[k].world, c, MailUpTo(p, states, events, k, c))
  {
    if k == 0 {
      StartLeads(p, now, c);
    } else {
      StrandRun(p, now, states, events, k - 1, c);
      RunShaped(p, now, states, events, k);
      Server.TurnAt(p, now, states, events, k - 1);
      TurnLeads(p, now, AllOnStrand(p, events[..k - 1]), states[k - 1], events[k - 1], states[k], c,
                MailUpTo(p, states, events, k - 1, c));
      AllUpTo(p, events, k - 1);
    }
  }

  /** In every state of every server run, a WebSocket client that got the headers decodes the
      mail of its connection up to some point, in order and once each, with nothing but pings in
      between; all of it when the connection is up and not writing. */
  lemma ServerSocketClient(p: Server.Setup, now: int, states: seq<Server.State>, events: seq<Server.Event>, k: nat, c: S.Id)
    requires Server.Sound(p) && Server.IsRun(p, now, states, events) && k <= |events| && c < |p.strand.cfgs|
    requires p.strand.cfgs[c].transport.Framed?
    requires c < |states[k].world.conns| && C.HeadersOut in states[k].world.conns[c].output
    ensures Complete(p, states)
    ensures var cfg, s := p.strand.cfgs[c], states[k].world.conns[c];
      s.output != [] && var d := WebSocket.Decoded(WireStream.Wire(cfg, WireStream.Middle(s.output)));
      d.Some? && CV.Received(cfg, s, MailUpTo(p, states, events, k, c), d.value)
  {
    RunsComplete(p, now, states, events);
    StrandRun(p, now, states, events, k, c);
    SocketClientGetsMail(p.strand, now, AllOnStrand(p, events[..k]), c);
  }

  /** And so does a plain client that reads the chunks. */
  lemma ServerChunkClient(p: Server.Setup, now: int, states: seq<Server.State>, events: seq<Server.Event>, k: nat, c: S.Id,
                          rest: string)
    requires Server.Sound(p) && Server.IsRun(p, now, states, events) && k <= |events| && c < |p.strand.cfgs|
    requires p.strand.cfgs[c].transport.Chunked?
    requires c < |states[k].world.conns| && C.HeadersOut in states[k].world.conns[c].output
    ensures Complete(p, states)
    ensures var cfg, s := p.strand.cfgs[c], states[k].world.conns[c];
      s.output != [] &&
      var ending := if C.LastOut in s.output then rest else Chunks.LastChunk + rest;
      var d := Chunks.ReadBody(WireStream.Wire(cfg, s.output[1..]) + ending);
      d.Some? && d.value.1 == rest && CV.Received(cfg, s, MailUpTo(p, states, events, k, c), d.value.0)
  {
    RunsComplete(p, now, states, events);
    StrandRun(p, now, states, events, k, c);
    ChunkClientGetsMail(p.strand, now, AllOnStrand(p, events[..k]), c, rest);
  }

  /** The same inside a server run. */
  lemma ServerServes(p: Server.Setup, now: int, states: seq<Server.State>, events: seq<Server.Event>, k: nat, c: S.Id,
                     es: seq<C.Event>)
    requires Server.Sound(p) && Server.IsRun(p, now, states, events) && k <= |events| && c < |p.strand.cfgs|
    requires IsPart(p.strand, now, AllOnStrand(p, events[..k]), c, es) && Undisturbed(p.strand.cfgs[c], now, es)
    ensures Complete(p, states) && Serves(states[k].world.conns[c], MailUpTo(p, states, events, k, c))
  {
    RunsComplete(p, now, states, events);
    StrandRun(p, now, states, events, k, c);
    UndisturbedServes(p.strand, now, AllOnStrand(p, events[..k]), c, es);
  }
}
