/** From `send` to the client: what a reader of the wire gets is what was sent, in order, with
    nothing but pings in between. Joins the runs of a connection to the printers. */
module ClientView {
  import opened Messages
  import opened ConnectionSpec
  import opened ConnectionInvariant
  import opened ConnectionRuns
  import opened WireStream
  import opened Sequences

  /** `all` is `texts` with copies of `ping` put in anywhere. */
  ghost predicate Interleaves(all: seq<string>, texts: seq<string>, ping: string)
    decreases |all|
  {
    if all == [] then texts == []
    else
      || (texts != [] && all[0] == texts[0] && Interleaves(all[1..], texts[1..], ping))
      || (all[0] == ping && Interleaves(all[1..], texts, ping))
  }

  function TextOf(o: Output): seq<string> {
    if o.TextOut? then [o.text] else []
  }

  lemma {:induction false} TextsOfFront(outputs: seq<Output>)
    requires outputs != []
    ensures TextsOf(outputs) == TextOf(outputs[0]) + TextsOf(outputs[1..])
  {
    var init, last := outputs[..|outputs| - 1], outputs[|outputs| - 1];
    if init != [] {
      TextsOfFront(init);
      assert outputs[1..][..|outputs| - 2] == init[1..];
      assert TextsOf(outputs[1..]) == TextsOf(init[1..]) + TextOf(last);
      Assoc(TextOf(outputs[0]), TextsOf(init[1..]), TextOf(last));
    } else {
      assert TextOf(last) + [] == TextOf(last);
    }
  }

  lemma {:induction false} BodyInterleaves(cfg: Config, outputs: seq<Output>)
    requires AllBody(outputs)
    ensures Interleaves(Payloads(cfg, outputs), TextsOf(outputs), cfg.pingText)
  {
    if outputs != [] {
      BodyInterleaves(cfg, outputs[1..]);
      TextsOfFront(outputs);
      assert Payloads(cfg, outputs)[1..] == Payloads(cfg, outputs[1..]);
      if outputs[0].TextOut? {
        assert TextsOf(outputs)[1..] == TextsOf(outputs[1..]);
      } else {
        assert TextsOf(outputs) == TextsOf(outputs[1..]);
      }
    }
  }

  /** Neither the headers nor the last message is a text. */
  lemma TextsInMiddle(output: seq<Output>)
    requires Streaming(output)
    ensures TextsOf(Middle(output)) == TextsOf(output)
  {
    TextsOfFront(output);
    var after := output[1..];
    assert TextsOf(output) == TextsOf(after);
    if after != [] && after[|after| - 1] == LastOut {
      assert TextsOf(after) == TextsOf(after[..|after| - 1]) + [];
    }
  }

  lemma {:induction false} NonEmptyInterleaves(all: seq<string>, texts: seq<string>, ping: string)
    requires Interleaves(all, texts, ping)
    ensures Interleaves(Chunks.NonEmpty(all), Chunks.NonEmpty(texts), ping)
    decreases |all|
  {
    if all != [] {
      var rest := Chunks.NonEmpty(all[1..]);
      if texts != [] && all[0] == texts[0] && Interleaves(all[1..], texts[1..], ping) {
        NonEmptyInterleaves(all[1..], texts[1..], ping);
        if all[0] == [] {
          assert Chunks.NonEmpty(all) == rest && Chunks.NonEmpty(texts) == Chunks.NonEmpty(texts[1..]);
        } else {
          ConsInterleaves(all[0], rest, Chunks.NonEmpty(texts[1..]), ping);
          assert Chunks.NonEmpty(texts) == [all[0]] + Chunks.NonEmpty(texts[1..]);
        }
      } else {
        NonEmptyInterleaves(all[1..], texts, ping);
        assert Chunks.NonEmpty(all) == if ping == [] then rest else [ping] + rest;
        assert ping != [] ==> Chunks.NonEmpty(all)[1..] == rest;
      }
    }
  }

  lemma ConsInterleaves(first: string, all: seq<string>, texts: seq<string>, ping: string)
    requires Interleaves(all, texts, ping)
    ensures Interleaves([first] + all, [first] + texts, ping)
  {
    assert ([first] + all)[1..] == all && ([first] + texts)[1..] == texts;
  }

  /** An empty text puts no chunk on the wire, but a frame. */
  function Heard(cfg: Config, texts: seq<string>): seq<string> {
    if cfg.transport.Chunked? then Chunks.NonEmpty(texts) else texts
  }

  /** `got` is what was sent up to some point before the null message, formatted, with pings in
      between; for a connection that is up and writes nothing it is everything that was sent. */
  ghost predicate Received(cfg: Config, s: Conn, sent: seq<Entry>, got: seq<string>) {
    && (exists k: nat :: k <= |sent| && Printable(sent[..k])
          && Interleaves(got, Heard(cfg, Texts(sent[..k])), cfg.pingText))
    && (s.connected && !s.writing ==> Interleaves(got, Heard(cfg, Texts(sent)), cfg.pingText))
  }

  lemma PayloadsReceived(cfg: Config, start: int, events: seq<Event>)
    requires Possible(cfg, Start(cfg, start), events)
    requires HeadersOut in Run(cfg, Start(cfg, start), events).output
    ensures var s := Run(cfg, Start(cfg, start), events);
      s.output != [] && Received(cfg, s, Sends(events), Heard(cfg, Payloads(cfg, Middle(s.output))))
  {
    var s := Run(cfg, Start(cfg, start), events);
    StreamsWithHeaders(cfg, start, events);
    WireIs(cfg, s.output);
    TextsInMiddle(s.output);
    BodyInterleaves(cfg, Middle(s.output));
    NonEmptyInterleaves(Payloads(cfg, Middle(s.output)), TextsOf(s.output), cfg.pingText);
    WriteDiscipline(cfg, start, events);
  }

  /** A WebSocket client that decodes the frames after the headers gets what was sent. */
  lemma SocketClientGetsSent(cfg: Config, start: int, events: seq<Event>)
    requires cfg.transport.Framed? && Possible(cfg, Start(cfg, start), events)
    requires HeadersOut in Run(cfg, Start(cfg, start), events).output
    ensures var s := Run(cfg, Start(cfg, start), events);
      s.output != [] && var d := WebSocket.Decoded(Wire(cfg, Middle(s.output)));
      d.Some? && Received(cfg, s, Sends(events), d.value)
  {
    SocketClientReads(cfg, start, events);
    PayloadsReceived(cfg, start, events);
  }

  /** And so does a plain client that reads the chunks, with the last-chunk yet to come or there. */
  lemma ChunkClientGetsSent(cfg: Config, start: int, events: seq<Event>, rest: string)
    requires cfg.transport.Chunked? && Possible(cfg, Start(cfg, start), events)
    requires HeadersOut in Run(cfg, Start(cfg, start), events).output
    ensures var s := Run(cfg, Start(cfg, start), events);
      s.output != [] &&
      var ending := if LastOut in s.output then rest else Chunks.LastChunk + rest;
      var d := Chunks.ReadBody(Wire(cfg, s.output[1..]) + ending);
      d.Some? && d.value.1 == rest && Received(cfg, s, Sends(events), d.value.0)
  {
    ChunkClientReads(cfg, start, events, rest);
    PayloadsReceived(cfg, start, events);
  }
}
