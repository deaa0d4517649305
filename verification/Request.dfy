/** Parsing a complete request: request line, headers, cookies, query string, body.
    Models include/details/request_helper.hpp and include/details/request_impl.hpp. */
module Request {
  import opened Text
  import opened LineReader
  import opened UrlCode
  import opened Wrappers

  datatype HttpError = BadRequest | MethodNotAllowed | RangeNotSatisfiable | VersionNotSupported
  datatype Result<T> = Ok(value: T) | Err(error: HttpError)

  const KeyHeader := "sec-websocket-key1"
  const KeyBodySize := 8

  predicate Colon(c: char) { c == ':' }
  predicate Semicolon(c: char) { c == ';' }
  predicate Equals(c: char) { c == '=' }
  predicate ParamDelimiter(c: char) { c == ';' || c == '&' }
  predicate Question(c: char) { c == '?' }

  // request_helper

  /** The method, the target and the protocol of a request line. */
  function LineParts(line: string): (string, string, string) {
    var method_ := SplitIf(line, Blank);
    var uri := SplitIf(method_.second, Blank);
    var protocol := SplitIf(uri.second, Blank);
    (method_.first, uri.first, protocol.first)
  }

  function ParseRequestLine(line: string): Result<string> {
    var parts := LineParts(line);
    if !CiEqual("get", parts.0) then Err(MethodNotAllowed)
    else if !CiEqual("http/1.1", Trim(parts.2)) then Err(VersionNotSupported)
    else Ok(parts.1)
  }

  predicate StartsWithNewlines(run: string) {
    |run| >= 2 && run[0] == '\n' && run[1] == '\n'
  }

  predicate StartsWithEndls(run: string) {
    |run| >= 4 && run[0] == '\r' && run[1] == '\n' && run[2] == '\r' && run[3] == '\n'
  }

  /** Where, in a CR/LF run, the headers end and the body starts. */
  function HeadersBreak(run: string): (r: Option<nat>)
    ensures r.Some? ==> r.value <= |run|
  {
    if |run| > 2 then
      if StartsWithNewlines(run) then Some(2) else if StartsWithEndls(run) then Some(4) else None
    else if |run| == 2 && StartsWithNewlines(run) then Some(2)
    else None
  }

  /** How much body must be there before the request is complete. */
  function ReadBodyAhead(line: string): nat {
    var header := SplitIf(line, Colon);
    if header.found && CiEqual(TrimRight(header.first), KeyHeader) then KeyBodySize else 0
  }

  // request_impl

  datatype Pair = Pair(key: string, value: string)

  /** Headers are keyed by their lower-cased names: the source compares names that way. */
  datatype Parsed = Parsed(
    uri: string,
    body: string,
    params: seq<Pair>,
    headers: map<string, string>,
    cookies: map<string, string>)

  /** `std::map::insert` keeps the value that is there. */
  function Inserted(m: map<string, string>, key: string, value: string): map<string, string> {
    if key in m then m else m[key := value]
  }

  function PairOf(text: string): Pair {
    var parts := SplitIf(text, Equals);
    Pair(Decoded(parts.first), Decoded(parts.second))
  }

  function ParamsOf(query: string): seq<Pair>
    decreases |query|
  {
    if query == [] then []
    else var part := SplitIf(query, ParamDelimiter); [PairOf(part.first)] + ParamsOf(part.second)
  }

  function CookiesOf(text: string, cookies: map<string, string>): map<string, string>
    decreases |text|
  {
    if text == [] then cookies
    else
      var part := SplitIf(text, Semicolon);
      var pair := PairOf(Trim(part.first));
      CookiesOf(part.second, Inserted(cookies, pair.key, pair.value))
  }

  function QueryOf(uri: string): string {
    var i := Find(uri, 0, Question);
    if i == |uri| then [] else uri[i + 1..]
  }

  /** The text of a line as the parser sees it: breaks inside a folded line are skipped. */
  function Unbroken(text: string): string {
    if text == [] then []
    else (if LineEnd(text[0]) then [] else [text[0]]) + Unbroken(text[1..])
  }

  function Unfolded(s: string, line: Line): string
    requires line.In(s)
  {
    if line.multiline then Unbroken(line.Text(s)) else line.Text(s)
  }

  function WithHeader(r: Parsed, line: string): Result<Parsed> {
    var header := SplitIf(line, Colon);
    if !header.found then Err(BadRequest) else WithField(r, TrimRight(header.first), Trim(header.second))
  }

  function WithField(r: Parsed, name: string, value: string): Result<Parsed> {
    if CiEqual("range", name) then Err(RangeNotSatisfiable)
    else
      Ok(Parsed(r.uri, r.body, r.params, Inserted(r.headers, Lowered(name), value),
                if CiEqual("cookie", name) then CookiesOf(value, r.cookies) else r.cookies))
  }

  function WithBody(r: Parsed, body: string): Parsed {
    Parsed(r.uri, body, r.params, r.headers, r.cookies)
  }

  function Begun(uri: string): Parsed {
    Parsed(uri, [], ParamsOf(QueryOf(uri)), map[], map[])
  }

  datatype Turn = Stop(result: Result<Parsed>) | Go(parsed: Parsed, begin: nat)

  /** One header line: an error, the break that ends the headers, or on to the next line. */
  function HeaderTurn(r: Parsed, s: string, begin: nat): (turn: Turn)
    requires begin < |s|
    ensures turn.Go? ==> begin < turn.begin <= |s|
  {
    var line := ReadAt(s, begin);
    AfterLine(s, line, WithHeader(r, Unfolded(s, line)))
  }

  /** `next` is what the line made of what was parsed before. */
  function AfterLine(s: string, line: Line, next: Result<Parsed>): (turn: Turn)
    requires line.In(s)
    ensures turn.Go? ==> turn.begin == line.next
  {
    if next.Err? then Stop(next)
    else
      var headersBreak := HeadersBreak(line.Break(s));
      if headersBreak.Some? then Stop(Ok(WithBody(next.value, s[line.end + headersBreak.value..])))
      else Go(next.value, line.next)
  }

  function WithHeaders(r: Parsed, s: string, begin: nat): Result<Parsed>
    requires begin <= |s|
    decreases |s| - begin
  {
    if begin == |s| then Ok(r)
    else
      var turn := HeaderTurn(r, s, begin);
      if turn.Stop? then turn.result else WithHeaders(turn.parsed, s, turn.begin)
  }

  function Parse(s: string): Result<Parsed> {
    if s == [] then Err(BadRequest)
    else
      var line := ReadAt(s, 0);
      var uri := ParseRequestLine(Unfolded(s, line));
      if uri.Err? then Err(uri.error)
      else WithHeaders(Begun(uri.value), s, line.next)
  }

  lemma ParseIs(s: string, line: Line)
    requires s != [] && line == ReadAt(s, 0)
    ensures var uri := ParseRequestLine(Unfolded(s, line));
      Parse(s) == if uri.Err? then Err(uri.error) else WithHeaders(Begun(uri.value), s, line.next)
  {
  }

  datatype Outcome = Fine | Threw(error: HttpError)

  class RequestImpl {
    var uri: string
    var body: string
    var params: seq<Pair>
    var headers: map<string, string>
    var cookies: map<string, string>

    function View(): Parsed
      reads this
    {
      Parsed(uri, body, params, headers, cookies)
    }

    constructor ()
      ensures View() == Parsed([], [], [], map[], map[])
    {
      uri, body, params, headers, cookies := [], [], [], map[], map[];
    }

    method Init(s: string) returns (outcome: Outcome)
      requires View() == Parsed([], [], [], map[], map[])
      modifies this
      ensures outcome == if Parse(s).Ok? then Fine else Threw(Parse(s).error)
      ensures outcome.Fine? ==> View() == Parse(s).value
    {
      var reader := new Reader(s);
      var ok, line := reader.ReadLine();
      if !ok {
        return Threw(BadRequest);
      }
      outcome := HandleRequestLine(Unfolded(s, line));
      ParseIs(s, line);
      if outcome.Threw? {
        return;
      }
      assert View() == Begun(uri);
      outcome := ParseHeaders(reader);
    }

    /** The loop over the header lines that the reader has left. */
    method ParseHeaders(reader: Reader) returns (outcome: Outcome)
      requires reader.Valid()
      modifies this, reader
      ensures var r := WithHeaders(old(View()), reader.s, old(reader.begin));
        outcome == (if r.Ok? then Fine else Threw(r.error)) && (r.Ok? ==> View() == r.value)
    {
      ghost var all := WithHeaders(View(), reader.s, reader.begin);
      var begin := reader.begin;
      var ok, line := reader.ReadLine();
      while ok
        invariant reader.Valid() && begin <= |reader.s| && ok == (begin < |reader.s|)
        invariant ok ==> line == ReadAt(reader.s, begin) && reader.begin == line.next
        invariant all == WithHeaders(View(), reader.s, begin)
        decreases |reader.s| - begin
      {
        ghost var turn := HeaderTurn(View(), reader.s, begin);
        var stop;
        outcome, stop := TakeLine(reader.s, line);
        if stop {
          assert all == turn.result;
          return;
        }
        begin := reader.begin;
        ok, line := reader.ReadLine();
      }
      return Fine;
    }

    method TakeLine(s: string, line: Line) returns (outcome: Outcome, stop: bool)
      requires line.begin < |s| && line == ReadAt(s, line.begin)
      modifies this
      ensures var turn := HeaderTurn(old(View()), s, line.begin);
        && stop == turn.Stop?
        && outcome == (if stop && turn.result.Err? then Threw(turn.result.error) else Fine)
        && (stop && outcome.Fine? ==> View() == turn.result.value)
        && (!stop ==> View() == turn.parsed && turn.begin == line.next)
    {
      ghost var next := WithHeader(View(), Unfolded(s, line));
      assert HeaderTurn(View(), s, line.begin) == AfterLine(s, line, next);
      outcome := HandleHeadersLine(Unfolded(s, line));
      if outcome.Threw? {
        return outcome, true;
      }
      assert next == Ok(View());
      stop := TakeBreak(s, line);
    }

    /** After a line that was in order: the body, if the headers end with it. */
    method TakeBreak(s: string, line: Line) returns (stop: bool)
      requires line.In(s)
      modifies this`body
      ensures var turn := AfterLine(s, line, Ok(old(View())));
        && stop == turn.Stop?
        && turn == if stop then Stop(Ok(View())) else Go(View(), line.next)
    {
      var headersBreak := HeadersBreak(line.Break(s));
      if headersBreak.Some? {
        body := s[line.end + headersBreak.value..];
        assert View() == WithBody(old(View()), body);
      }
      return headersBreak.Some?;
    }

    method HandleRequestLine(line: string) returns (outcome: Outcome)
      modifies this`uri, this`params
      ensures outcome == if ParseRequestLine(line).Ok? then Fine else Threw(ParseRequestLine(line).error)
      ensures outcome.Fine? ==>
        uri == ParseRequestLine(line).value && params == old(params) + ParamsOf(QueryOf(uri))
    {
      var r := ParseRequestLine(line);
      if r.Err? {
        return Threw(r.error);
      }
      ParseUri(r.value);
      return Fine;
    }

    method ParseUri(text: string)
      modifies this`uri, this`params
      ensures uri == text && params == old(params) + ParamsOf(QueryOf(text))
    {
      uri := text;
      var i := Find(text, 0, Question);
      if i != |text| {
        ParseQueryString(text[i + 1..]);
      }
    }

    method ParseQueryString(query: string)
      modifies this`params
      ensures params == old(params) + ParamsOf(query)
    {
      var r := query;
      ghost var done: seq<Pair> := [];
      while r != []
        invariant params == old(params) + done && done + ParamsOf(r) == ParamsOf(query)
        decreases |r|
      {
        var part := SplitIf(r, ParamDelimiter);
        assert done + ParamsOf(r) == done + [PairOf(part.first)] + ParamsOf(part.second);
        r := part.second;
        params := params + [PairOf(part.first)];
        done := done + [PairOf(part.first)];
      }
    }

    method ParseCookies(text: string)
      modifies this`cookies
      ensures cookies == CookiesOf(text, old(cookies))
    {
      var r := text;
      while r != []
        invariant CookiesOf(r, cookies) == CookiesOf(text, old(cookies))
        decreases |r|
      {
        var part := SplitIf(r, Semicolon);
        r := part.second;
        var pair := PairOf(Trim(part.first));
        cookies := Inserted(cookies, pair.key, pair.value);
      }
    }

    method HandleHeadersLine(line: string) returns (outcome: Outcome)
      modifies this`headers, this`cookies
      ensures outcome == if WithHeader(old(View()), line).Ok? then Fine else Threw(WithHeader(old(View()), line).error)
      ensures outcome.Fine? ==> View() == WithHeader(old(View()), line).value
    {
      var header := SplitIf(line, Colon);
      if !header.found {
        return Threw(BadRequest);
      }
      var tail := Trim(header.second);
      var head := TrimRight(header.first);
      outcome := HandleHeader(head, tail);
    }

    method HandleHeader(head: string, tail: string) returns (outcome: Outcome)
      modifies this`headers, this`cookies
      ensures outcome == if WithField(old(View()), head, tail).Ok? then Fine else Threw(WithField(old(View()), head, tail).error)
      ensures outcome.Fine? ==> View() == WithField(old(View()), head, tail).value
    {
      if CiEqual("range", head) {
        return Threw(RangeNotSatisfiable);
      } else if CiEqual("cookie", head) {
        ParseCookies(tail);
      }
      headers := Inserted(headers, Lowered(head), tail);
      return Fine;
    }
  }
}
