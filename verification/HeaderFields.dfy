/** Whole printed requests come back from the parser: target, parameters, headers, cookies, body. */
module HeaderFields {
  import opened Text
  import opened LineReader
  import opened UrlCode
  import opened Request
  import opened RequestAgreement
  import opened Unfolding
  import opened QueryString
  import opened Sequences
  import opened Wrappers

  /** A header field; `pairs` are the cookies that a cookie field carries. */
  datatype Field = Field(name: string, value: string, pairs: seq<Pair>)

  predicate IsCookie(f: Field) {
    CiEqual("cookie", f.name)
  }

  predicate IsRange(f: Field) {
    CiEqual("range", f.name)
  }

  /** A name has neither white space nor a colon, a value neither line ends nor white space
      around it; cookies are printed. */
  ghost predicate Printable(f: Field) {
    && NoSpace(f.name) && (forall k :: 0 <= k < |f.name| ==> f.name[k] != ':')
    && NoLineEnd(f.value) && (f.value != [] ==> !Space(f.value[0]) && !Space(f.value[|f.value| - 1]))
    && (if IsCookie(f) then f.pairs != [] && BytePairs(f.pairs) && f.value == PrintedCookies(f.pairs) else f.pairs == [])
  }

  ghost predicate AllPrintable(fields: seq<Field>) {
    forall k :: 0 <= k < |fields| ==> Printable(fields[k])
  }

  function FieldText(f: Field): (r: string)
    ensures r != []
  {
    f.name + [':'] + ([' '] + f.value)
  }

  const Endl := ['\r', '\n']

  /** The lines of the fields, the empty line, and the body. */
  function FieldLines(fields: seq<Field>, body: string): string {
    if fields == [] then Endl + body else FieldText(fields[0]) + Endl + FieldLines(fields[1..], body)
  }

  /** The body does not fold the line before it: a blank after its leading CR/LF would. */
  predicate NoFold(body: string) {
    Leading(body) < |body| ==> !Blank(body[Leading(body)])
  }

  // ---- One line ----

  lemma LineAt(s: string, begin: nat, text: string, run: string, rest: string)
    requires begin <= |s| && s[begin..] == text + run + rest && text != [] && NoLineEnd(text)
    requires run != [] && forall k :: 0 <= k < |run| ==> LineEnd(run[k])
    requires rest != [] ==> !LineEnd(rest[0]) && !Blank(rest[0])
    ensures var line := Line(begin, begin + |text|, begin + |text| + |run|, false);
      begin < |s| && ReadAt(s, begin) == line && line.Text(s) == text && line.Break(s) == run
  {
    var line := Line(begin, begin + |text|, begin + |text| + |run|, false);
    var tail := s[begin..];
    assert forall k :: 0 <= k < |tail| ==> s[begin + k] == tail[k];
    assert line.Text(s) == tail[..|text|] == text;
    assert line.Break(s) == tail[|text|..|text| + |run|] == run;
    assert forall k :: begin <= k < line.end ==> s[k] == text[k - begin];
    assert forall k :: line.end <= k < line.next ==> s[k] == run[k - line.end];
    assert line.next < |s| ==> s[line.next] == rest[0];
    assert IsLine(s, begin, line);
    ReadIsLine(s, begin);
    OneLine(s, begin, ReadAt(s, begin), line);
  }

  lemma TrimSpaces(value: string)
    requires value != [] ==> !Space(value[0]) && !Space(value[|value| - 1])
    ensures Trim([' '] + value) == value
  {
    if value == [] {
      TrimRightCore([], [' ']);
      assert [] + [' '] == [' '] + value;
    } else {
      TrimCore([' '], value, []);
      assert [' '] + value + [] == [' '] + value;
    }
  }

  lemma NameStays(name: string)
    requires NoSpace(name)
    ensures TrimRight(name) == name
  {
    TrimRightCore(name, []);
    assert name + [] == name;
  }

  /** The parser takes a printed field apart where it was put together. */
  lemma FieldTaken(r: Parsed, f: Field)
    requires Printable(f)
    ensures WithHeader(r, FieldText(f)) == WithField(r, f.name, f.value)
  {
    SplitAt(f.name, ':', [' '] + f.value, Colon);
    NameStays(f.name);
    TrimSpaces(f.value);
  }

  /** A field folded inside its value is taken with the line breaks left out. */
  lemma FoldedFieldTaken(r: Parsed, name: string, value: string)
    requires NoSpace(name) && forall k :: 0 <= k < |name| ==> name[k] != ':'
    ensures WithHeader(r, Unbroken(name + [':'] + value)) == WithField(r, name, Trim(Unbroken(value)))
  {
    UnbrokenAppend(name + [':'], value);
    UnbrokenClean(name + [':']);
    SplitAt(name, ':', Unbroken(value), Colon);
    NameStays(name);
  }

  // ---- What the fields leave ----

  /** Of equal names the first stays. */
  function Stored(headers: map<string, string>, fields: seq<Field>): map<string, string>
    decreases |fields|
  {
    if fields == [] then headers
    else Stored(Inserted(headers, Lowered(fields[0].name), fields[0].value), fields[1..])
  }

  function AllPairs(fields: seq<Field>): seq<Pair> {
    if fields == [] then [] else fields[0].pairs + AllPairs(fields[1..])
  }

  function After(r: Parsed, fields: seq<Field>): Parsed {
    Parsed(r.uri, r.body, r.params, Stored(r.headers, fields), AllInserted(r.cookies, AllPairs(fields)))
  }

  lemma {:induction false} InsertedOn(m: map<string, string>, a: seq<Pair>, b: seq<Pair>)
    ensures AllInserted(m, a + b) == AllInserted(AllInserted(m, a), b)
    decreases |a|
  {
    FrontFirst(a, b);
    if a != [] {
      Tail(a[0], a[1..] + b);
      InsertedOn(Inserted(m, a[0].key, a[0].value), a[1..], b);
    }
  }

  lemma OneField(r: Parsed, f: Field)
    requires Printable(f)
    ensures WithField(r, f.name, f.value) == if IsRange(f) then Err(RangeNotSatisfiable) else Ok(After(r, [f]))
  {
    OnlyField(r, f);
    if IsCookie(f) {
      CookiesRoundTrip([], f.pairs, r.cookies);
      assert [] + f.value == f.value;
    }
  }

  lemma AfterFirst(r: Parsed, fields: seq<Field>)
    requires fields != []
    ensures After(r, fields) == After(After(r, [fields[0]]), fields[1..])
  {
    var f := fields[0];
    OnlyField(r, f);
    InsertedOn(r.cookies, f.pairs, AllPairs(fields[1..]));
  }

  lemma OnlyField(r: Parsed, f: Field)
    ensures After(r, [f]) ==
            Parsed(r.uri, r.body, r.params, Inserted(r.headers, Lowered(f.name), f.value), AllInserted(r.cookies, f.pairs))
  {
    assert [f][1..] == [];
    assert Stored(Inserted(r.headers, Lowered(f.name), f.value), []) == Inserted(r.headers, Lowered(f.name), f.value);
    assert AllPairs([f]) == f.pairs + AllPairs([]);
    assert f.pairs + [] == f.pairs;
  }

  // ---- Reading the lines ----

  lemma FieldLineClean(f: Field)
    requires Printable(f)
    ensures NoLineEnd(FieldText(f)) && !Blank(FieldText(f)[0]) && !LineEnd(FieldText(f)[0])
  {
    var text := FieldText(f);
    assert f.name != [] ==> text[0] == f.name[0];
    forall k | 0 <= k < |text| ensures !LineEnd(text[k]) {
      if k < |f.name| {
        assert text[k] == f.name[k];
      } else if k >= |f.name| + 2 {
        assert text[k] == f.value[k - |f.name| - 2];
      }
    }
  }

  /** A field line that another one follows. */
  lemma InnerField(s: string, begin: nat, fields: seq<Field>, body: string)
    requires |fields| > 1 && AllPrintable(fields) && begin <= |s| && s[begin..] == FieldLines(fields, body)
    ensures begin < |s|
    ensures var line := ReadAt(s, begin);
      && !line.multiline && line.Text(s) == FieldText(fields[0]) && BreakOf(s, line).None?
      && s[line.next..] == FieldLines(fields[1..], body)
  {
    var text, rest := FieldText(fields[0]), FieldLines(fields[1..], body);
    FieldLineClean(fields[0]);
    FieldLineClean(fields[1]);
    assert rest[0] == FieldText(fields[1])[0];
    LineAt(s, begin, text, Endl, rest);
    assert s[begin..][|text| + 2..] == rest;
  }

  /** How many CR/LF the body begins with. */
  function Leading(body: string): (n: nat)
    ensures n <= |body| && forall k :: 0 <= k < n ==> LineEnd(body[k])
    ensures n < |body| ==> !LineEnd(body[n])
  {
    FindNot(body, 0, LineEnd)
  }

  /** The run of CR/LF after the last field: its line end, the empty line, and what the body adds. */
  function LastRun(body: string): string {
    Endl + Endl + body[..Leading(body)]
  }

  lemma LastText(f: Field, body: string)
    ensures FieldLines([f], body) == FieldText(f) + LastRun(body) + body[Leading(body)..]
  {
    var n := Leading(body);
    assert [f][1..] == [];
    assert body == body[..n] + body[n..];
    assert FieldLines([f], body) == FieldText(f) + Endl + (Endl + body);
  }

  lemma LastRunBreaks(body: string)
    ensures HeadersBreak(LastRun(body)) == Some(4)
    ensures forall k :: 0 <= k < |LastRun(body)| ==> LineEnd(LastRun(body)[k])
  {
    var run := LastRun(body);
    assert run[0] == '\r' && run[1] == '\n' && run[2] == '\r' && run[3] == '\n';
    assert forall k :: 4 <= k < |run| ==> run[k] == body[k - 4];
  }

  lemma BodyIn(f: Field, body: string)
    ensures |FieldLines([f], body)| == |FieldText(f)| + 4 + |body|
    ensures FieldLines([f], body)[|FieldText(f)| + 4..] == body
  {
    assert [f][1..] == [];
    assert FieldLines([f], body) == FieldText(f) + Endl + (Endl + body);
  }

  lemma TailOfTail(s: string, begin: nat, k: nat)
    requires begin + k <= |s|
    ensures s[begin..][k..] == s[begin + k..]
  {
  }

  /** The last one: the headers end behind its line end and the empty line. */
  lemma LastField(s: string, begin: nat, f: Field, body: string)
    requires Printable(f) && NoFold(body) && begin <= |s| && s[begin..] == FieldLines([f], body)
    ensures begin < |s|
    ensures var line := ReadAt(s, begin);
      && !line.multiline && line.Text(s) == FieldText(f)
      && BreakOf(s, line).Some? && s[BreakOf(s, line).value..] == body
  {
    FieldLineClean(f);
    LastText(f, body);
    LastRunBreaks(body);
    LineAt(s, begin, FieldText(f), LastRun(body), body[Leading(body)..]);
    BodyIn(f, body);
    TailOfTail(s, begin, |FieldText(f)| + 4);
  }

  lemma FieldTurn(r: Parsed, s: string, begin: nat, f: Field)
    requires Printable(f) && begin < |s|
    requires var line := ReadAt(s, begin); !line.multiline && line.Text(s) == FieldText(f)
    ensures var line := ReadAt(s, begin);
      WithHeaders(r, s, begin) ==
        if IsRange(f) then Err(RangeNotSatisfiable)
        else if BreakOf(s, line).Some? then Ok(WithBody(After(r, [f]), s[BreakOf(s, line).value..]))
        else WithHeaders(After(r, [f]), s, line.next)
  {
    FieldTaken(r, f);
    OneField(r, f);
    TurnTaken(r, s, begin);
    TurnFollowed(r, s, begin);
  }

  predicate SomeRange(fields: seq<Field>) {
    exists k :: 0 <= k < |fields| && IsRange(fields[k])
  }

  /** What the parser makes of fields, the empty line and a body. */
  function FieldsResult(r: Parsed, fields: seq<Field>, body: string): Result<Parsed> {
    if SomeRange(fields) then Err(RangeNotSatisfiable) else Ok(WithBody(After(r, fields), body))
  }

  lemma {:induction false} FieldsParse(r: Parsed, s: string, begin: nat, fields: seq<Field>, body: string)
    requires fields != [] && AllPrintable(fields) && NoFold(body) && begin <= |s| && s[begin..] == FieldLines(fields, body)
    ensures WithHeaders(r, s, begin) == FieldsResult(r, fields, body)
    decreases |fields|
  {
    if |fields| == 1 {
      assert fields == [fields[0]];
      LastParses(r, s, begin, fields[0], body);
    } else {
      InnerParses(r, s, begin, fields, body);
      ResultOn(r, fields, body);
      if !IsRange(fields[0]) { FieldsParse(After(r, [fields[0]]), s, ReadAt(s, begin).next, fields[1..], body); }
    }
  }

  lemma LastParses(r: Parsed, s: string, begin: nat, f: Field, body: string)
    requires Printable(f) && NoFold(body) && begin <= |s| && s[begin..] == FieldLines([f], body)
    ensures WithHeaders(r, s, begin) == FieldsResult(r, [f], body)
  {
    LastField(s, begin, f, body);
    FieldTurn(r, s, begin, f);
    assert SomeRange([f]) <==> IsRange([f][0]);
  }

  lemma InnerParses(r: Parsed, s: string, begin: nat, fields: seq<Field>, body: string)
    requires |fields| > 1 && AllPrintable(fields) && begin <= |s| && s[begin..] == FieldLines(fields, body)
    ensures begin < |s| && s[ReadAt(s, begin).next..] == FieldLines(fields[1..], body)
    ensures WithHeaders(r, s, begin) ==
      if IsRange(fields[0]) then Err(RangeNotSatisfiable)
      else WithHeaders(After(r, [fields[0]]), s, ReadAt(s, begin).next)
  {
    InnerField(s, begin, fields, body);
    FieldTurn(r, s, begin, fields[0]);
  }

  lemma ResultOn(r: Parsed, fields: seq<Field>, body: string)
    requires fields != []
    ensures FieldsResult(r, fields, body) ==
      if IsRange(fields[0]) then Err(RangeNotSatisfiable) else FieldsResult(After(r, [fields[0]]), fields[1..], body)
  {
    RangeAmong(fields);
    AfterFirst(r, fields);
  }

  lemma RangeAmong(fields: seq<Field>)
    requires fields != []
    ensures SomeRange(fields) <==> IsRange(fields[0]) || SomeRange(fields[1..])
  {
    if k :| 0 < k < |fields| && IsRange(fields[k]) {
      assert IsRange(fields[1..][k - 1]);
    }
  }

  // ---- The whole request ----

  /** The first field of a name, given in lower case, or the number of fields. */
  function FirstNamed(fields: seq<Field>, key: string): (k: nat)
    ensures k <= |fields| && forall j :: 0 <= j < k ==> Lowered(fields[j].name) != key
    ensures k < |fields| ==> Lowered(fields[k].name) == key
  {
    if fields == [] || Lowered(fields[0].name) == key then 0 else 1 + FirstNamed(fields[1..], key)
  }

  lemma {:induction false} StoredFirst(headers: map<string, string>, fields: seq<Field>, key: string)
    ensures var all := Stored(headers, fields); var k := FirstNamed(fields, key);
      && (key in all <==> key in headers || k < |fields|)
      && (key in all ==> all[key] == if key in headers then headers[key] else fields[k].value)
    decreases |fields|
  {
    if fields != [] { StoredFirst(Inserted(headers, Lowered(fields[0].name), fields[0].value), fields[1..], key); }
  }

  /** The headers hold, under each lower-cased name, the value of the first field of that name. */
  ghost predicate HoldsFirst(headers: map<string, string>, fields: seq<Field>) {
    forall key :: (key in headers <==> FirstNamed(fields, key) < |fields|) &&
                  (key in headers ==> headers[key] == fields[FirstNamed(fields, key)].value)
  }

  /** A printed request comes back from the parser: its target, the parameters of the target,
      under each name the first value, all cookies in order of which the first of equal names
      stays, and the body; unless it has a range header, which is refused. */
  lemma RequestComesBack(uri: string, fields: seq<Field>, body: string)
    requires NoSpace(uri) && fields != [] && AllPrintable(fields) && NoFold(body)
    ensures var r := Parse(RequestText(uri, FieldLines(fields, body)));
      if SomeRange(fields) then r == Err(RangeNotSatisfiable)
      else
        && r.Ok? && r.value.uri == uri && r.value.body == body && r.value.params == ParamsOf(QueryOf(uri))
        && HoldsFirst(r.value.headers, fields) && r.value.cookies == AllInserted(map[], AllPairs(fields))
  {
    var rest := FieldLines(fields, body);
    var s := RequestText(uri, rest);
    FieldLineClean(fields[0]);
    assert rest[0] == FieldText(fields[0])[0];
    ParseBegins(uri, rest);
    FieldsParse(Begun(uri), s, |s| - |rest|, fields, body);
    StoredHolds(fields);
  }

  lemma StoredHolds(fields: seq<Field>)
    ensures HoldsFirst(Stored(map[], fields), fields)
  {
    var all := Stored(map[], fields);
    forall key
      ensures key in all <==> FirstNamed(fields, key) < |fields|
      ensures key in all ==> all[key] == fields[FirstNamed(fields, key)].value
    {
      StoredFirst(map[], fields, key);
    }
  }

  lemma ParseBegins(uri: string, rest: string)
    requires NoSpace(uri) && rest != [] && !Blank(rest[0]) && !LineEnd(rest[0])
    ensures var s := RequestText(uri, rest);
      Parse(s) == WithHeaders(Begun(uri), s, |s| - |rest|) && s[|s| - |rest|..] == rest
  {
    TargetRoundTrip(uri);
    FirstLine(uri, rest);
  }

  /** And with printed parameters, those too. */
  lemma ParametersComeBack(path: string, pairs: seq<Pair>, delimiters: string, fields: seq<Field>, body: string)
    requires forall k :: 0 <= k < |path| ==> !Question(path[k]) && !Space(path[k])
    requires BytePairs(pairs) && |delimiters| >= |pairs| && Delimiters(delimiters)
    requires fields != [] && AllPrintable(fields) && NoFold(body) && !SomeRange(fields)
    ensures var uri := path + ['?'] + Printed(pairs, delimiters);
      var r := Parse(RequestText(uri, FieldLines(fields, body)));
      && r.Ok? && r.value.uri == uri && r.value.params == pairs && r.value.body == body
      && HoldsFirst(r.value.headers, fields) && r.value.cookies == AllInserted(map[], AllPairs(fields))
  {
    var query := Printed(pairs, delimiters);
    PrintedChars(pairs, delimiters);
    QueryRoundTrip(pairs, delimiters);
    PathAndQuery(path, query);
    NoSpaceInTarget(path, query);
    RequestComesBack(path + ['?'] + query, fields, body);
  }

  /** Printable as a value, and not empty. */
  predicate Tidy(text: string) {
    text != [] && NoLineEnd(text) && !Space(text[0]) && !Space(text[|text| - 1])
  }

  lemma JoinedTidy(a: string, b: string)
    requires Tidy(a) && Tidy(b)
    ensures Tidy(a + [';'] + ([' '] + b))
  {
    var text := a + [';'] + ([' '] + b);
    assert text[0] == a[0] && text[|text| - 1] == b[|b| - 1];
    forall k | 0 <= k < |text| ensures !LineEnd(text[k]) {
      if k < |a| {
        assert text[k] == a[k];
      } else if k >= |a| + 2 {
        assert text[k] == b[k - |a| - 2];
      }
    }
  }

  lemma PairTidy(pair: Pair)
    requires Bytes(pair.key) && Bytes(pair.value)
    ensures Tidy(PairText(pair))
  {
    var text := PairText(pair);
    PairTextSpaceless(pair);
    PairTextChars(pair);
    forall k | 0 <= k < |text| ensures !Space(text[k]) {
      assert text[k] in text;
    }
  }

  /** Printed cookies are a printable value. */
  lemma {:induction false} CookiesPrintable(pairs: seq<Pair>)
    requires BytePairs(pairs) && pairs != []
    ensures Tidy(PrintedCookies(pairs))
  {
    PrintedFirst(pairs);
    PairTidy(pairs[0]);
    if |pairs| > 1 {
      CookiesPrintable(pairs[1..]);
      JoinedTidy(PairText(pairs[0]), PrintedCookies(pairs[1..]));
    }
  }
}
