/** The completeness check and the parser read the same request: how far they agree. */
module RequestAgreement {
  import opened Text
  import opened LineReader
  import opened Request
  import opened RequestChecker
  import opened Unfolding
  import opened Wrappers

  // The first header break, and the key header, said of the lines of the text.

  function BreakOf(s: string, line: Line): (r: Option<nat>)
    requires line.In(s)
    ensures r.Some? ==> line.end < r.value <= line.next
  {
    var found := HeadersBreak(line.Break(s));
    if found.Some? then Some(line.end + found.value) else None
  }

  predicate KeyLine(s: string, line: Line)
    requires line.In(s)
  {
    ReadBodyAhead(line.Text(s)) > 0
  }

  predicate AllIn(s: string, lines: seq<Line>) {
    forall k :: 0 <= k < |lines| ==> lines[k].In(s)
  }

  /** The headers end in the run of CR/LF after line `i`, and no earlier. */
  predicate EndsAt(s: string, lines: seq<Line>, i: nat)
    requires AllIn(s, lines)
  {
    i < |lines| && BreakOf(s, lines[i]).Some? && forall j :: 0 <= j < i ==> BreakOf(s, lines[j]).None?
  }

  /** One of the lines up to `i` is a Sec-WebSocket-Key1 header. */
  predicate KeyUpTo(s: string, lines: seq<Line>, i: nat)
    requires AllIn(s, lines) && i < |lines|
  {
    exists j :: 0 <= j <= i && KeyLine(s, lines[j])
  }

  // What the checker decides.

  lemma {:induction false} NoLateMatch(s: string, begin: nat)
    requires begin <= |s| < begin + KeyBodySize
    ensures CheckHeaders(s, begin, KeyBodySize) == More
    decreases |s| - begin
  {
    if begin < |s| {
      NoLateMatch(s, ReadAt(s, begin).next);
    }
  }

  lemma {:induction false} NoBreakNoMatch(s: string, begin: nat, ahead: nat)
    requires begin <= |s| && forall j :: 0 <= j < |LinesFrom(s, begin)| ==> BreakOf(s, LinesFrom(s, begin)[j]).None?
    ensures CheckHeaders(s, begin, ahead) == More
    decreases |s| - begin
  {
    if begin < |s| {
      var line := ReadAt(s, begin);
      var lines := LinesFrom(s, begin);
      assert lines[0] == line && lines[1..] == LinesFrom(s, line.next);
      assert BreakOf(s, lines[0]).None?;
      forall j | 0 <= j < |LinesFrom(s, line.next)| ensures BreakOf(s, LinesFrom(s, line.next)[j]).None? {
        assert LinesFrom(s, line.next)[j] == lines[j + 1];
      }
      NoBreakNoMatch(s, line.next, Ahead(s, line, ahead));
    }
  }

  /** The checker stops at this line. */
  predicate EndsHeaders(s: string, line: Line, ahead: nat)
    requires line.In(s)
  {
    BreakOf(s, line).Some? && |s| >= BreakOf(s, line).value + Ahead(s, line, ahead)
  }

  lemma CheckTurn(s: string, begin: nat, ahead: nat)
    requires begin < |s|
    ensures var line := ReadAt(s, begin); var next := Ahead(s, line, ahead);
      CheckHeaders(s, begin, ahead) ==
        if EndsHeaders(s, line, ahead) then Matched(if next == 0 then line.end else |s|, BreakOf(s, line).value)
        else CheckHeaders(s, line.next, next)
  {
  }

  lemma EndsInTail(s: string, lines: seq<Line>, i: nat)
    requires AllIn(s, lines) && 0 < i && EndsAt(s, lines, i)
    ensures BreakOf(s, lines[0]).None? && EndsAt(s, lines[1..], i - 1)
  {
    assert BreakOf(s, lines[0]).None?;
    assert forall j :: 0 <= j < |lines[1..]| ==> lines[1..][j] == lines[j + 1];
  }

  /** The decision at the first break: with a key header before it the body must be there too. */
  lemma {:induction false} Decision(s: string, begin: nat, ahead: nat, i: nat)
    requires begin <= |s| && (ahead == 0 || ahead == KeyBodySize) && EndsAt(s, LinesFrom(s, begin), i)
    ensures var line := LinesFrom(s, begin)[i]; var b := BreakOf(s, line).value;
      CheckHeaders(s, begin, ahead) ==
        if ahead == 0 && !KeyUpTo(s, LinesFrom(s, begin), i) then Matched(line.end, b)
        else if |s| - b >= KeyBodySize then Matched(|s|, b)
        else More
    decreases |s| - begin
  {
    var line := ReadAt(s, begin);
    var lines, rest := LinesFrom(s, begin), LinesFrom(s, line.next);
    assert lines[0] == line && lines[1..] == rest;
    CheckTurn(s, begin, ahead);
    if i == 0 {
      assert KeyUpTo(s, lines, 0) <==> KeyLine(s, line);
      if !EndsHeaders(s, line, ahead) {
        NoLateMatch(s, line.next);
      }
    } else {
      EndsInTail(s, lines, i);
      Decision(s, line.next, Ahead(s, line, ahead), i - 1);
      KeyInTail(s, lines, i);
    }
  }

  lemma KeyInTail(s: string, lines: seq<Line>, i: nat)
    requires AllIn(s, lines) && 0 < i < |lines|
    ensures KeyUpTo(s, lines, i) <==> KeyLine(s, lines[0]) || KeyUpTo(s, lines[1..], i - 1)
  {
    if KeyUpTo(s, lines[1..], i - 1) {
      var j :| 0 <= j <= i - 1 && KeyLine(s, lines[1..][j]);
      assert KeyLine(s, lines[j + 1]);
    }
    if KeyUpTo(s, lines, i) {
      var j :| 0 <= j <= i && KeyLine(s, lines[j]);
      if j > 0 {
        assert KeyLine(s, lines[1..][j - 1]);
      }
    }
  }

  /** The header lines of a text: all but its first line. */
  function HeaderLines(s: string): (r: seq<Line>)
    ensures AllIn(s, r)
  {
    if s == [] then [] else LinesFrom(s, ReadAt(s, 0).next)
  }

  predicate GoodRequestLine(s: string) {
    s != [] && var line := ReadAt(s, 0); line.end < line.next && ParseRequestLine(line.Text(s)).Ok?
  }

  /** The break `b` of the first line that has one, with enough body if a key header precedes it. */
  ghost predicate Complete(s: string, b: nat) {
    GoodRequestLine(s) && CompleteIn(s, HeaderLines(s), b)
  }

  ghost predicate CompleteIn(s: string, lines: seq<Line>, b: nat)
    requires AllIn(s, lines)
  {
    exists i: nat :: CompleteAt(s, lines, i, b)
  }

  predicate CompleteAt(s: string, lines: seq<Line>, i: nat, b: nat)
    requires AllIn(s, lines)
  {
    && EndsAt(s, lines, i) && BreakOf(s, lines[i]) == Some(b)
    && (KeyUpTo(s, lines, i) ==> |s| >= b + KeyBodySize)
  }

  predicate StopsAt(r: Checked, b: nat) {
    r.Matched? && r.headersBreak == b
  }

  lemma AfterRequestLine(s: string)
    ensures GoodRequestLine(s) ==> CheckHttp(s) == CheckHeaders(s, ReadAt(s, 0).next, 0)
    ensures !GoodRequestLine(s) ==> !CheckHttp(s).Matched?
  {
  }

  lemma OneFirst(s: string, lines: seq<Line>, i: nat, j: nat)
    requires AllIn(s, lines) && EndsAt(s, lines, i) && EndsAt(s, lines, j)
    ensures i == j
  {
  }

  function FindFirst(s: string, lines: seq<Line>, i: nat): (r: nat)
    requires AllIn(s, lines) && i <= |lines| && forall j :: 0 <= j < i ==> BreakOf(s, lines[j]).None?
    ensures r <= |lines|
    ensures r < |lines| ==> EndsAt(s, lines, r)
    ensures r == |lines| ==> forall j :: 0 <= j < |lines| ==> BreakOf(s, lines[j]).None?
    decreases |lines| - i
  {
    if i == |lines| || BreakOf(s, lines[i]).Some? then i else FindFirst(s, lines, i + 1)
  }

  lemma HeadersComplete(s: string, begin: nat, b: nat)
    requires begin <= |s|
    ensures StopsAt(CheckHeaders(s, begin, 0), b) <==> CompleteIn(s, LinesFrom(s, begin), b)
  {
    var lines := LinesFrom(s, begin);
    var i := FindFirst(s, lines, 0);
    if i < |lines| {
      Decision(s, begin, 0, i);
      assert StopsAt(CheckHeaders(s, begin, 0), b) <==> CompleteAt(s, lines, i, b);
      forall j: nat | CompleteAt(s, lines, j, b) ensures j == i {
        OneFirst(s, lines, i, j);
      }
    } else {
      NoBreakNoMatch(s, begin, 0);
    }
  }

  /** Exactly when the checker accepts, and that the break it accepts is the first. */
  lemma AcceptsComplete(s: string, b: nat)
    ensures StopsAt(CheckHttp(s), b) <==> Complete(s, b)
  {
    AfterRequestLine(s);
    if GoodRequestLine(s) {
      HeadersComplete(s, ReadAt(s, 0).next, b);
    }
  }

  // What the parser makes of the same lines.

  lemma LineTaken(s: string, line: Line, next: Result<Parsed>)
    requires line.In(s)
    ensures AfterLine(s, line, next) ==
        if next.Err? then Stop(next)
        else if BreakOf(s, line).Some? then Stop(Ok(WithBody(next.value, s[BreakOf(s, line).value..])))
        else Go(next.value, line.next)
  {
  }

  lemma TurnTaken(r: Parsed, s: string, begin: nat)
    requires begin < |s|
    ensures var line := ReadAt(s, begin); var next := WithHeader(r, Unfolded(s, line));
      HeaderTurn(r, s, begin) ==
        if next.Err? then Stop(next)
        else if BreakOf(s, line).Some? then Stop(Ok(WithBody(next.value, s[BreakOf(s, line).value..])))
        else Go(next.value, line.next)
  {
    var line := ReadAt(s, begin);
    LineTaken(s, line, WithHeader(r, Unfolded(s, line)));
  }

  lemma TurnFollowed(r: Parsed, s: string, begin: nat)
    requires begin < |s|
    ensures var turn := HeaderTurn(r, s, begin);
      WithHeaders(r, s, begin) == if turn.Stop? then turn.result else WithHeaders(turn.parsed, s, turn.begin)
  {
  }

  lemma ParserTurn(r: Parsed, s: string, begin: nat)
    requires begin < |s| && WithHeaders(r, s, begin).Ok?
    ensures var line := ReadAt(s, begin); var next := WithHeader(r, Unfolded(s, line));
      && next.Ok?
      && WithHeaders(r, s, begin) ==
           if BreakOf(s, line).Some? then Ok(WithBody(next.value, s[BreakOf(s, line).value..]))
           else WithHeaders(next.value, s, line.next)
  {
    TurnTaken(r, s, begin);
    TurnFollowed(r, s, begin);
  }

  /** The first header break after `begin`. */
  function FirstBreak(s: string, begin: nat): (r: Option<nat>)
    requires begin <= |s|
    ensures r.Some? ==> r.value <= |s|
    decreases |s| - begin
  {
    if begin == |s| then None
    else
      var line := ReadAt(s, begin);
      if BreakOf(s, line).Some? then BreakOf(s, line) else FirstBreak(s, line.next)
  }

  lemma {:induction false} BreakFound(s: string, begin: nat)
    requires begin <= |s|
    ensures FirstBreak(s, begin) == BreakAmong(s, LinesFrom(s, begin))
    decreases |s| - begin
  {
    if begin < |s| {
      var line := ReadAt(s, begin);
      BreakFound(s, line.next);
      assert LinesFrom(s, begin) == [line] + LinesFrom(s, line.next);
      BreakInFront(s, line, LinesFrom(s, line.next));
    }
  }

  function BreakAmong(s: string, lines: seq<Line>): Option<nat>
    requires AllIn(s, lines)
  {
    var i := FindFirst(s, lines, 0);
    if i < |lines| then BreakOf(s, lines[i]) else None
  }

  lemma BreakInFront(s: string, line: Line, rest: seq<Line>)
    requires line.In(s) && AllIn(s, rest)
    ensures AllIn(s, [line] + rest)
    ensures BreakAmong(s, [line] + rest) == if BreakOf(s, line).Some? then BreakOf(s, line) else BreakAmong(s, rest)
  {
    assert ([line] + rest)[1..] == rest;
    if BreakOf(s, line).None? { FirstInTail(s, [line] + rest); }
  }

  lemma {:induction false} BodyFollows(r: Parsed, s: string, begin: nat)
    requires begin <= |s| && WithHeaders(r, s, begin).Ok?
    ensures WithHeaders(r, s, begin).value.body ==
            if FirstBreak(s, begin).Some? then s[FirstBreak(s, begin).value..] else r.body
    decreases |s| - begin
  {
    if begin < |s| {
      var next := BodyTurn(r, s, begin);
      if BreakOf(s, ReadAt(s, begin)).None? { BodyFollows(next, s, ReadAt(s, begin).next); }
    }
  }

  /** The parser's body is what follows the first header break, if there is one. */
  lemma ParserBody(r: Parsed, s: string, begin: nat)
    requires begin <= |s| && WithHeaders(r, s, begin).Ok?
    ensures var lines := LinesFrom(s, begin); var i := FindFirst(s, lines, 0);
      WithHeaders(r, s, begin).value.body ==
        if i < |lines| then s[BreakOf(s, lines[i]).value..] else r.body
  {
    BodyFollows(r, s, begin);
    BreakFound(s, begin);
  }

  lemma BodyTurn(r: Parsed, s: string, begin: nat) returns (next: Parsed)
    requires begin < |s| && WithHeaders(r, s, begin).Ok?
    ensures next.body == r.body
    ensures var line := ReadAt(s, begin);
      WithHeaders(r, s, begin) ==
        if BreakOf(s, line).Some? then Ok(WithBody(next, s[BreakOf(s, line).value..])) else WithHeaders(next, s, line.next)
  {
    ParserTurn(r, s, begin);
    next := WithHeader(r, Unfolded(s, ReadAt(s, begin))).value;
  }

  lemma FirstInTail(s: string, lines: seq<Line>)
    requires AllIn(s, lines) && lines != [] && BreakOf(s, lines[0]).None?
    ensures FindFirst(s, lines, 0) == FindFirst(s, lines[1..], 0) + 1
  {
    var rest := lines[1..];
    var i, j := FindFirst(s, lines, 0), FindFirst(s, rest, 0);
    if j < |rest| {
      assert BreakOf(s, lines[j + 1]).Some?;
      assert EndsAt(s, lines, j + 1) by {
        forall k | 0 <= k < j + 1 ensures BreakOf(s, lines[k]).None? {
          assert k > 0 ==> lines[k] == rest[k - 1];
        }
      }
      OneFirst(s, lines, i, j + 1);
    } else {
      forall k | 0 <= k < |lines| ensures BreakOf(s, lines[k]).None? {
        assert k > 0 ==> lines[k] == rest[k - 1];
      }
    }
  }

  /** The parser stores the key header exactly when the checker takes the line for one,
      wherever the line is folded. */
  lemma KeyHeaderAgrees(r: Parsed, s: string, begin: nat)
    requires begin < |s| && WithHeader(r, Unfolded(s, ReadAt(s, begin))).Ok?
    ensures var line := ReadAt(s, begin);
      KeyHeader in WithHeader(r, Unfolded(s, line)).value.headers <==> KeyHeader in r.headers || KeyLine(s, line)
  {
    var line := ReadAt(s, begin);
    ReadIsLine(s, begin);
    UnfoldedIsUnbroken(s, line);
    KeyIsLower();
    NamesAgree(line.Text(s), KeyHeader);
    StoredName(r, Unfolded(s, line), KeyHeader);
  }

  lemma StoredName(r: Parsed, text: string, key: string)
    requires WithHeader(r, text).Ok?
    ensures var header := SplitIf(text, Colon);
      && header.found
      && (key in WithHeader(r, text).value.headers <==> key in r.headers || Lowered(TrimRight(header.first)) == key)
  {
    var header := SplitIf(text, Colon);
    StoredField(r, TrimRight(header.first), Trim(header.second), key);
  }

  lemma StoredField(r: Parsed, name: string, value: string, key: string)
    requires WithField(r, name, value).Ok?
    ensures key in WithField(r, name, value).value.headers <==> key in r.headers || Lowered(name) == key
  {
    assert WithField(r, name, value).value.headers == Inserted(r.headers, Lowered(name), value);
  }

  lemma NamesAgree(t: string, key: string)
    requires Folded(t) && NoSpace(Lowered(key))
    ensures var seen, parsed := SplitIf(t, Colon), SplitIf(Unbroken(t), Colon);
      seen.found == parsed.found && (CiEqual(TrimRight(parsed.first), key) <==> CiEqual(TrimRight(seen.first), key))
  {
    SplitUnbroken(t, Colon);
    var head := SplitIf(t, Colon).first;
    assert Folded(head) by {
      assert forall k :: 0 <= k < |head| ==> head[k] == t[k];
    }
    NameUnbroken(head, key);
  }

  lemma KeyIsLower()
    ensures Lowered(KeyHeader) == KeyHeader && NoSpace(Lowered(KeyHeader))
  {
    assert forall k :: 0 <= k < |KeyHeader| ==> KeyHeader[k] == '-' || KeyHeader[k] == '1' || 'a' <= KeyHeader[k] <= 'z';
  }

  /** A key header comes no later than the line of the first header break. */
  predicate KeyBefore(s: string, begin: nat)
    requires begin <= |s|
    decreases |s| - begin
  {
    begin < |s| &&
    var line := ReadAt(s, begin);
    KeyLine(s, line) || (BreakOf(s, line).None? && KeyBefore(s, line.next))
  }

  lemma {:induction false} KeyFound(s: string, begin: nat, i: nat)
    requires begin <= |s| && EndsAt(s, LinesFrom(s, begin), i)
    ensures KeyBefore(s, begin) <==> KeyUpTo(s, LinesFrom(s, begin), i)
    decreases |s| - begin
  {
    var line, rest := ReadAt(s, begin), LinesFrom(s, ReadAt(s, begin).next);
    assert LinesFrom(s, begin) == [line] + rest;
    if i == 0 {
      assert KeyUpTo(s, [line] + rest, 0) <==> KeyLine(s, line);
    } else {
      KeyPassed(s, line, rest, i);
      KeyFound(s, line.next, i - 1);
    }
  }

  lemma KeyPassed(s: string, line: Line, rest: seq<Line>, i: nat)
    requires line.In(s) && AllIn(s, rest) && i > 0 && EndsAt(s, [line] + rest, i)
    ensures BreakOf(s, line).None? && EndsAt(s, rest, i - 1)
    ensures KeyUpTo(s, [line] + rest, i) <==> KeyLine(s, line) || KeyUpTo(s, rest, i - 1)
  {
    assert ([line] + rest)[1..] == rest;
    EndsInTail(s, [line] + rest, i);
    KeyInTail(s, [line] + rest, i);
  }

  lemma {:induction false} KeyFollows(r: Parsed, s: string, begin: nat)
    requires begin <= |s| && WithHeaders(r, s, begin).Ok? && FirstBreak(s, begin).Some?
    ensures KeyHeader in WithHeaders(r, s, begin).value.headers <==> KeyHeader in r.headers || KeyBefore(s, begin)
    decreases |s| - begin
  {
    var next := KeyTurn(r, s, begin);
    if BreakOf(s, ReadAt(s, begin)).None? { KeyFollows(next, s, ReadAt(s, begin).next); }
  }

  lemma KeyTurn(r: Parsed, s: string, begin: nat) returns (next: Parsed)
    requires begin < |s| && WithHeaders(r, s, begin).Ok?
    ensures var line := ReadAt(s, begin);
      && (KeyHeader in next.headers <==> KeyHeader in r.headers || KeyLine(s, line))
      && WithHeaders(r, s, begin) ==
           if BreakOf(s, line).Some? then Ok(WithBody(next, s[BreakOf(s, line).value..])) else WithHeaders(next, s, line.next)
  {
    ParserTurn(r, s, begin);
    KeyHeaderAgrees(r, s, begin);
    next := WithHeader(r, Unfolded(s, ReadAt(s, begin))).value;
  }

  lemma KeyHeadersAgree(r: Parsed, s: string, begin: nat, i: nat)
    requires begin <= |s| && WithHeaders(r, s, begin).Ok?
    requires var lines := LinesFrom(s, begin); i == FindFirst(s, lines, 0) < |lines|
    ensures KeyHeader in WithHeaders(r, s, begin).value.headers <==>
            KeyHeader in r.headers || KeyUpTo(s, LinesFrom(s, begin), i)
  {
    BreakFound(s, begin);
    KeyFollows(r, s, begin);
    KeyFound(s, begin, i);
  }

  /** If the checker accepts and the parser does not throw, the parser stops at the accepted
      break, and a Sec-WebSocket-Key1 header comes with a body of at least eight bytes. */
  lemma ParserAgrees(s: string)
    requires CheckHttp(s).Matched? && Parse(s).Ok?
    ensures var b := CheckHttp(s).headersBreak; var parsed := Parse(s).value;
      && b <= |s| && parsed.body == s[b..]
      && (KeyHeader in parsed.headers ==> |parsed.body| >= KeyBodySize && CheckHttp(s).at == |s|)
      && (KeyHeader !in parsed.headers ==> CheckHttp(s).at < b)
  {
    AfterRequestLine(s);
    var begin, b := ReadAt(s, 0).next, CheckHttp(s).headersBreak;
    var r := Begun(ParseRequestLine(Unfolded(s, ReadAt(s, 0))).value);
    ParserAgreesFrom(r, s, begin, b);
  }

  lemma ParserAgreesFrom(r: Parsed, s: string, begin: nat, b: nat)
    requires begin <= |s| && StopsAt(CheckHeaders(s, begin, 0), b) && WithHeaders(r, s, begin).Ok?
    requires KeyHeader !in r.headers
    ensures var at := CheckHeaders(s, begin, 0).at; var parsed := WithHeaders(r, s, begin).value;
      && b <= |s| && parsed.body == s[b..]
      && (KeyHeader in parsed.headers ==> |parsed.body| >= KeyBodySize && at == |s|)
      && (KeyHeader !in parsed.headers ==> at < b)
  {
    var lines := LinesFrom(s, begin);
    HeadersComplete(s, begin, b);
    var i := FindFirst(s, lines, 0);
    var j: nat :| CompleteAt(s, lines, j, b);
    OneFirst(s, lines, i, j);
    Decision(s, begin, 0, i);
    ParserBody(r, s, begin);
    KeyHeadersAgree(r, s, begin, i);
  }

  // The request line.

  /** The checker sees the request line with its breaks, the parser without. The checker takes
      it exactly when the parser does and a blank directly follows the three-letter method;
      the targets differ by the breaks only. */
  lemma RequestLineAgrees(s: string)
    requires s != []
    ensures var line := ReadAt(s, 0);
      && var seen, parsed := ParseRequestLine(line.Text(s)), ParseRequestLine(Unfolded(s, line));
      && (parsed.Ok? ==> 3 < |s|)
      && (seen.Ok? <==> parsed.Ok? && Blank(s[3]))
      && (seen.Ok? ==> parsed.value == Unbroken(seen.value))
      && (seen.Err? && parsed.Ok? ==> seen.error == MethodNotAllowed)
  {
    var line := ReadAt(s, 0);
    ReadIsLine(s, 0);
    UnfoldedIsUnbroken(s, line);
    PartsAgree(line.Text(s));
  }

  /** When the parser accepts a request whose first line has ended, the checker throws for it
      exactly when the method is not directly followed by a blank: a fold lies between them. */
  lemma ThrowsApart(s: string)
    requires Parse(s).Ok? && ReadAt(s, 0).end < ReadAt(s, 0).next
    ensures 3 < |s| && (CheckHttp(s).Failed? <==> !Blank(s[3]))
  {
    RequestLineAgrees(s);
  }

  lemma PartsAgree(t: string)
    requires Folded(t)
    ensures var seen, parsed := ParseRequestLine(t), ParseRequestLine(Unbroken(t));
      && (parsed.Ok? ==> 3 < |t|)
      && (seen.Ok? <==> parsed.Ok? && Blank(t[3]))
      && (seen.Ok? ==> parsed.value == Unbroken(seen.value))
      && (seen.Err? && parsed.Ok? ==> seen.error == MethodNotAllowed)
  {
    Pieces(t);
    if CiEqual("http/1.1", Trim(LineParts(t).2)) {
      MethodAgrees(t);
    }
  }

  lemma Pieces(t: string)
    requires Folded(t)
    ensures var seen, parsed := LineParts(t), LineParts(Unbroken(t));
      parsed.0 == Unbroken(seen.0) && parsed.1 == Unbroken(seen.1) && Trim(parsed.2) == Trim(seen.2)
  {
    var a := SplitIf(t, Blank);
    var b := SplitIf(a.second, Blank);
    var c := SplitIf(b.second, Blank);
    SplitUnbroken(t, Blank);
    SplitUnbroken(a.second, Blank);
    SplitUnbroken(b.second, Blank);
    SplitFolded(t);
    SplitFolded(a.second);
    SplitFolded(b.second);
    ProtocolAgrees(c.first);
  }

  lemma SplitFolded(t: string)
    requires Folded(t)
    ensures var a := SplitIf(t, Blank);
      Folded(a.first) && Folded(a.second) && NoBlank(a.first)
  {
    var a := SplitIf(t, Blank);
    assert forall k :: 0 <= k < |a.first| ==> a.first[k] == t[k];
    assert forall k :: 0 <= k < |a.second| ==> a.second[k] == t[|a.first| + 1 + k];
  }

  lemma MethodAgrees(t: string)
    requires Folded(t) && CiEqual("http/1.1", Trim(LineParts(t).2))
    ensures var first := LineParts(t).0;
      && (CiEqual("get", Unbroken(first)) ==> 3 < |t|)
      && (CiEqual("get", first) <==> CiEqual("get", Unbroken(first)) && Blank(t[3]))
  {
    ProtocolAfterMethod(t);
    var first := SplitIf(t, Blank).first;
    SplitFolded(t);
    var run := PieceUnbroken(first);
    if CiEqual("get", first) {
      CiEqualNoSpace(first, "get");
      UnbrokenClean(first);
    }
  }

  lemma NoParts(t: string)
    requires !SplitIf(t, Blank).found
    ensures LineParts(t).2 == []
  {
    assert SplitIf(t, Blank).second == [];
    assert SplitIf([], Blank) == Split([], [], false);
  }

  /** A line with a protocol has a blank after its method. */
  lemma ProtocolAfterMethod(t: string)
    requires CiEqual("http/1.1", Trim(LineParts(t).2))
    ensures SplitIf(t, Blank).found
  {
    if !SplitIf(t, Blank).found {
      NoParts(t);
      TrimEmpty();
    }
  }

  lemma TrimEmpty()
    ensures Trim([]) == [] && !CiEqual("http/1.1", [])
  {
  }

  lemma ProtocolAgrees(piece: string)
    requires Folded(piece) && NoBlank(piece)
    ensures Trim(Unbroken(piece)) == Trim(piece)
  {
    var run := PieceUnbroken(piece);
    TrimAppend(Unbroken(piece), run);
  }

  /** A break at the end does not matter to a trim. */
  lemma TrimAppend(t: string, run: string)
    requires AllLineEnd(run)
    ensures Trim(t + run) == Trim(t)
  {
    var core := TrimRight(t);
    var tail := t[|core|..];
    assert t + run == core + (tail + run);
    TrimRightCore(core, tail + run);
  }
}
