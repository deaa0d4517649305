/** Printed parameters and cookies come back from the parser. */
module QueryString {
  import opened Text
  import opened LineReader
  import opened UrlCode
  import opened Request
  import opened Unfolding

  ghost predicate BytePairs(pairs: seq<Pair>) {
    forall k :: 0 <= k < |pairs| ==> Bytes(pairs[k].key) && Bytes(pairs[k].value)
  }

  predicate Delimiters(delimiters: string) {
    forall k :: 0 <= k < |delimiters| ==> ParamDelimiter(delimiters[k])
  }

  function PairText(pair: Pair): string
    requires Bytes(pair.key) && Bytes(pair.value)
  {
    Encoded(pair.key) + ['='] + Encoded(pair.value)
  }

  function Printed(pairs: seq<Pair>, delimiters: string): string
    requires BytePairs(pairs) && |delimiters| >= |pairs|
  {
    if pairs == [] then []
    else if |pairs| == 1 then PairText(pairs[0])
    else PairText(pairs[0]) + [delimiters[0]] + Printed(pairs[1..], delimiters[1..])
  }

  lemma PairTextChars(pair: Pair)
    requires Bytes(pair.key) && Bytes(pair.value)
    ensures forall c :: c in PairText(pair) ==> Plain(c) || c == '%' || c == '='
    ensures PairText(pair) != []
  {
  }

  lemma PairRoundTrip(pair: Pair)
    requires Bytes(pair.key) && Bytes(pair.value)
    ensures PairOf(PairText(pair)) == pair
  {
    var key, value := Encoded(pair.key), Encoded(pair.value);
    SplitAt(key, '=', value, Equals);
    DecodeEncoded(pair.key);
    DecodeEncoded(pair.value);
  }

  lemma ParamsStep(text: string, delimiter: char, rest: string)
    requires ParamDelimiter(delimiter) && forall k :: 0 <= k < |text| ==> !ParamDelimiter(text[k])
    ensures ParamsOf(text + [delimiter] + rest) == [PairOf(text)] + ParamsOf(rest)
    ensures text != [] ==> ParamsOf(text) == [PairOf(text)]
  {
    SplitAt(text, delimiter, rest, ParamDelimiter);
    SplitNone(text, ParamDelimiter);
    assert ParamsOf([]) == [];
  }

  /** Pairs printed as code=code and joined by any mix of `&` and `;` parse back to the same
      pairs, in order. */
  lemma {:induction false} QueryRoundTrip(pairs: seq<Pair>, delimiters: string)
    requires BytePairs(pairs) && |delimiters| >= |pairs| && Delimiters(delimiters)
    ensures ParamsOf(Printed(pairs, delimiters)) == pairs
  {
    if pairs != [] {
      var rest := if |pairs| == 1 then [] else Printed(pairs[1..], delimiters[1..]);
      FirstPair(pairs[0], delimiters[0], rest);
      if |pairs| > 1 {
        QueryRoundTrip(pairs[1..], delimiters[1..]);
      }
    }
  }

  lemma FirstPair(pair: Pair, delimiter: char, rest: string)
    requires Bytes(pair.key) && Bytes(pair.value) && ParamDelimiter(delimiter)
    ensures ParamsOf(PairText(pair) + [delimiter] + rest) == [pair] + ParamsOf(rest)
    ensures ParamsOf(PairText(pair)) == [pair]
  {
    PairRoundTrip(pair);
    NoDelimiter(pair);
    ParamsStep(PairText(pair), delimiter, rest);
  }

  lemma NoDelimiter(pair: Pair)
    requires Bytes(pair.key) && Bytes(pair.value)
    ensures var text := PairText(pair); text != [] && forall k :: 0 <= k < |text| ==> !ParamDelimiter(text[k])
  {
    var text := PairText(pair);
    PairTextChars(pair);
    forall k | 0 <= k < |text| ensures !ParamDelimiter(text[k]) {
      assert text[k] in text;
    }
  }

  lemma {:induction false} PrintedChars(pairs: seq<Pair>, delimiters: string)
    requires BytePairs(pairs) && |delimiters| >= |pairs| && Delimiters(delimiters)
    ensures forall c :: c in Printed(pairs, delimiters) ==> !Space(c)
  {
    if pairs != [] {
      PairTextSpaceless(pairs[0]);
      if |pairs| > 1 {
        PrintedChars(pairs[1..], delimiters[1..]);
        var rest := Printed(pairs[1..], delimiters[1..]);
        assert Printed(pairs, delimiters) == PairText(pairs[0]) + [delimiters[0]] + rest;
        assert !Space(delimiters[0]);
      }
    }
  }

  lemma PairTextSpaceless(pair: Pair)
    requires Bytes(pair.key) && Bytes(pair.value)
    ensures forall c :: c in PairText(pair) ==> !Space(c)
  {
    PairTextChars(pair);
  }

  function PrintedCookies(pairs: seq<Pair>): string
    requires BytePairs(pairs)
  {
    if pairs == [] then []
    else if |pairs| == 1 then PairText(pairs[0])
    else PairText(pairs[0]) + [';'] + ([' '] + PrintedCookies(pairs[1..]))
  }

  function AllInserted(m: map<string, string>, pairs: seq<Pair>): map<string, string>
    decreases |pairs|
  {
    if pairs == [] then m else AllInserted(Inserted(m, pairs[0].key, pairs[0].value), pairs[1..])
  }

  lemma TrimPair(space: string, pair: Pair)
    requires AllSpace(space) && Bytes(pair.key) && Bytes(pair.value)
    ensures Trim(space + PairText(pair)) == PairText(pair)
  {
    var text := PairText(pair);
    PairTextChars(pair);
    assert text[0] in text && text[|text| - 1] in text;
    TrimCore(space, text, []);
    assert space + text + [] == space + text;
  }

  lemma CookiesStep(text: string, rest: string, m: map<string, string>)
    requires text != [] && forall k :: 0 <= k < |text| ==> !Semicolon(text[k])
    ensures var pair := PairOf(Trim(text)); var next := Inserted(m, pair.key, pair.value);
      CookiesOf(text, m) == next && CookiesOf(text + [';'] + rest, m) == CookiesOf(rest, next)
  {
    SplitAt(text, ';', rest, Semicolon);
    SplitNone(text, Semicolon);
  }

  lemma NoSemicolon(space: string, pair: Pair)
    requires AllSpace(space) && Bytes(pair.key) && Bytes(pair.value)
    ensures var text := space + PairText(pair); text != [] && forall k :: 0 <= k < |text| ==> !Semicolon(text[k])
  {
    PairTextChars(pair);
    assert forall c :: c in space + PairText(pair) ==> c in space || c in PairText(pair);
  }

  /** One printed cookie, after the blank that may precede it. */
  lemma CookieStep(space: string, pair: Pair, rest: string, m: map<string, string>)
    requires AllSpace(space) && Bytes(pair.key) && Bytes(pair.value)
    ensures var next := Inserted(m, pair.key, pair.value);
      && CookiesOf(space + PairText(pair), m) == next
      && CookiesOf(space + (PairText(pair) + [';'] + rest), m) == CookiesOf(rest, next)
  {
    var text := space + PairText(pair);
    TrimPair(space, pair);
    PairRoundTrip(pair);
    NoSemicolon(space, pair);
    CookiesStep(text, rest, m);
    Regroup(space, PairText(pair), [';'], rest);
  }

  lemma Regroup(a: string, b: string, c: string, d: string)
    ensures a + (b + c + d) == (a + b) + c + d
  {
  }

  /** So do cookies joined by "; "; of equal names the first stays. */
  lemma {:induction false} CookiesRoundTrip(space: string, pairs: seq<Pair>, m: map<string, string>)
    requires BytePairs(pairs) && AllSpace(space) && pairs != []
    ensures CookiesOf(space + PrintedCookies(pairs), m) == AllInserted(m, pairs)
    decreases |pairs|
  {
    var next := Inserted(m, pairs[0].key, pairs[0].value);
    AllButFirst(m, pairs);
    PrintedFirst(pairs);
    if |pairs| == 1 {
      CookieStep(space, pairs[0], [], m);
    } else {
      CookieStep(space, pairs[0], [' '] + PrintedCookies(pairs[1..]), m);
      CookiesRoundTrip([' '], pairs[1..], next);
    }
  }

  lemma AllButFirst(m: map<string, string>, pairs: seq<Pair>)
    requires pairs != []
    ensures var next := Inserted(m, pairs[0].key, pairs[0].value);
      AllInserted(m, pairs) == AllInserted(next, pairs[1..]) && (|pairs| == 1 ==> AllInserted(m, pairs) == next)
  {
  }

  lemma PrintedFirst(pairs: seq<Pair>)
    requires BytePairs(pairs) && pairs != []
    ensures PrintedCookies(pairs) ==
            if |pairs| == 1 then PairText(pairs[0])
            else PairText(pairs[0]) + [';'] + ([' '] + PrintedCookies(pairs[1..]))
  {
  }

  // Down to the request line.

  /** A target without blanks comes back from the request line that carries it. */
  lemma TargetRoundTrip(uri: string)
    requires forall k :: 0 <= k < |uri| ==> !Blank(uri[k])
    ensures ParseRequestLine("GET" + [' '] + (uri + [' '] + "HTTP/1.1")) == Ok(uri)
  {
    LinePieces("GET", uri, "HTTP/1.1");
    Names();
  }

  /** A request line with one blank after the method and one after the target: the method must be
      GET and the protocol HTTP/1.1, in any case, and the method is looked at first. */
  lemma RequestLineExact(first: string, uri: string, protocol: string)
    requires forall k :: 0 <= k < |first| ==> !Blank(first[k])
    requires forall k :: 0 <= k < |uri| ==> !Blank(uri[k])
    requires NoSpace(protocol)
    ensures var r := ParseRequestLine(first + [' '] + (uri + [' '] + protocol));
      && (r.Ok? <==> Lowered(first) == "get" && Lowered(protocol) == "http/1.1")
      && (r.Ok? ==> r.value == uri)
      && (r == Err(MethodNotAllowed) <==> Lowered(first) != "get")
      && (r == Err(VersionNotSupported) <==> Lowered(first) == "get" && Lowered(protocol) != "http/1.1")
  {
    LinePieces(first, uri, protocol);
    LowerNames();
    NoTrim(protocol);
  }

  lemma NoTrim(text: string)
    requires NoSpace(text)
    ensures Trim(text) == text
  {
    TrimRightCore(text, []);
    assert text + [] == text;
  }

  lemma LowerNames()
    ensures Lowered("get") == "get" && Lowered("http/1.1") == "http/1.1"
  {
  }

  lemma LinePieces(first: string, second: string, third: string)
    requires forall k :: 0 <= k < |first| ==> !Blank(first[k])
    requires forall k :: 0 <= k < |second| ==> !Blank(second[k])
    requires forall k :: 0 <= k < |third| ==> !Blank(third[k])
    ensures LineParts(first + [' '] + (second + [' '] + third)) == (first, second, third)
  {
    SplitAt(first, ' ', second + [' '] + third, Blank);
    SplitAt(second, ' ', third, Blank);
    SplitNone(third, Blank);
  }

  lemma Names()
    ensures CiEqual("get", "GET") && CiEqual("http/1.1", Trim("HTTP/1.1"))
  {
    MethodName();
    ProtocolName();
  }

  lemma MethodName()
    ensures CiEqual("get", "GET")
  {
    assert Lowered("GET") == "get" == Lowered("get");
  }

  lemma ProtocolName()
    ensures CiEqual("http/1.1", Trim("HTTP/1.1"))
  {
    var protocol := "HTTP/1.1";
    TrimCore([], protocol, []);
    assert [] + protocol + [] == protocol;
    ProtocolLowered();
  }

  lemma ProtocolLowered()
    ensures CiEqual("http/1.1", "HTTP/1.1")
  {
    assert Lowered("HTTP/1.1") == "http/1.1" == Lowered("http/1.1");
  }

  lemma PathAndQuery(path: string, query: string)
    requires forall k :: 0 <= k < |path| ==> !Question(path[k])
    ensures QueryOf(path + ['?'] + query) == query
  {
    var uri := path + ['?'] + query;
    assert uri[|path|] == '?';
    assert forall k :: 0 <= k < |path| ==> uri[k] == path[k];
    assert Find(uri, 0, Question) == |path|;
  }

  lemma NoQuery(uri: string)
    requires forall k :: 0 <= k < |uri| ==> !Question(uri[k])
    ensures ParamsOf(QueryOf(uri)) == []
  {
    assert Find(uri, 0, Question) == |uri|;
  }

  lemma {:induction false} HeadersKeepTarget(r: Parsed, s: string, begin: nat)
    requires begin <= |s| && WithHeaders(r, s, begin).Ok?
    ensures var parsed := WithHeaders(r, s, begin).value; parsed.uri == r.uri && parsed.params == r.params
    decreases |s| - begin
  {
    if begin < |s| {
      var turn := HeaderTurn(r, s, begin);
      if turn.Go? {
        HeadersKeepTarget(turn.parsed, s, turn.begin);
      }
    }
  }

  function RequestText(uri: string, rest: string): string {
    "GET" + [' '] + (uri + [' '] + "HTTP/1.1") + "\r\n" + rest
  }

  /** A request for a path with printed parameters, if it parses, has that target and those
      parameters, whatever its headers and body are. */
  lemma RequestRoundTrip(path: string, pairs: seq<Pair>, delimiters: string, rest: string)
    requires forall k :: 0 <= k < |path| ==> !Question(path[k]) && !Space(path[k])
    requires BytePairs(pairs) && |delimiters| >= |pairs| && Delimiters(delimiters)
    requires rest != [] ==> !Blank(rest[0]) && !LineEnd(rest[0])
    requires Parse(RequestText(path + ['?'] + Printed(pairs, delimiters), rest)).Ok?
    ensures var uri := path + ['?'] + Printed(pairs, delimiters);
      var parsed := Parse(RequestText(uri, rest)).value; parsed.uri == uri && parsed.params == pairs
  {
    var query := Printed(pairs, delimiters);
    var uri := path + ['?'] + query;
    PrintedChars(pairs, delimiters);
    QueryRoundTrip(pairs, delimiters);
    PathAndQuery(path, query);
    NoSpaceInTarget(path, query);
    ParsedTarget(uri, rest);
  }

  lemma NoSpaceInTarget(path: string, query: string)
    requires forall k :: 0 <= k < |path| ==> !Space(path[k])
    requires forall c :: c in query ==> !Space(c)
    ensures var uri := path + ['?'] + query; forall k :: 0 <= k < |uri| ==> !Space(uri[k])
  {
    assert forall k :: 0 <= k < |query| ==> query[k] in query;
  }

  lemma ParsedTarget(uri: string, rest: string)
    requires forall k :: 0 <= k < |uri| ==> !Space(uri[k])
    requires rest != [] ==> !Blank(rest[0]) && !LineEnd(rest[0])
    requires Parse(RequestText(uri, rest)).Ok?
    ensures var parsed := Parse(RequestText(uri, rest)).value;
      parsed.uri == uri && parsed.params == ParamsOf(QueryOf(uri))
  {
    TargetRoundTrip(uri);
    FirstLine(uri, rest);
    var s := RequestText(uri, rest);
    HeadersKeepTarget(Begun(uri), s, ReadAt(s, 0).next);
  }

  lemma FirstLine(uri: string, rest: string)
    requires forall k :: 0 <= k < |uri| ==> !Space(uri[k])
    requires rest != [] ==> !Blank(rest[0]) && !LineEnd(rest[0])
    ensures var s := RequestText(uri, rest); var line := ReadAt(s, 0);
      !line.multiline && line.Text(s) == "GET" + [' '] + (uri + [' '] + "HTTP/1.1") && line.next == |s| - |rest|
  {
    var s, text := RequestText(uri, rest), "GET" + [' '] + (uri + [' '] + "HTTP/1.1");
    var line := Line(0, |text|, |text| + 2, false);
    assert s[..|text|] == text;
    assert s[|text|] == '\r' && s[|text| + 1] == '\n';
    assert rest != [] ==> s[|text| + 2] == rest[0];
    assert NoLineEnd(text) by {
      forall k | 0 <= k < |text| ensures !LineEnd(text[k]) {
        if 4 <= k < 4 + |uri| {
          assert text[k] == uri[k - 4];
        } else if k >= 4 + |uri| {
          assert text[k] == ([' '] + "HTTP/1.1")[k - 4 - |uri|];
        }
      }
    }
    assert IsLine(s, 0, line) by {
      assert line.Text(s) == text;
      assert forall k :: 0 <= k < |text| ==> s[k] == text[k];
    }
    ReadIsLine(s, 0);
    OneLine(s, 0, ReadAt(s, 0), line);
  }
}
