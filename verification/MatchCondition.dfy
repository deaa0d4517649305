/** The match condition as a whole: when reading a request stops, and where. */
module MatchCondition {
  import opened Text
  import opened LineReader
  import opened Request
  import opened RequestChecker
  import opened RequestAgreement
  import opened Wrappers

  /** The first line has ended and is no request line. */
  predicate BadStart(s: string) {
    s != [] && ReadAt(s, 0).end < ReadAt(s, 0).next && ParseRequestLine(ReadAt(s, 0).Text(s)).Err?
  }

  /** Two line ends of one kind, at the start of a CR/LF run. */
  predicate EmptyLine(s: string, at: nat, b: nat) {
    && at < b <= |s| && (s[at..b] == "\n\n" || s[at..b] == "\r\n\r\n")
    && (at > 0 ==> !LineEnd(s[at - 1]))
  }

  /** What ends the headers: an empty line, made of two equal line ends. */
  lemma BreakIs(s: string, line: Line, b: nat)
    requires line.In(s) && line.end <= b
    ensures BreakOf(s, line) == Some(b) <==>
            b <= line.next && (s[line.end..b] == "\n\n" || s[line.end..b] == "\r\n\r\n")
  {
    var run := line.Break(s);
    assert forall k :: 0 <= k < |run| ==> run[k] == s[line.end + k];
    if b <= line.next {
      var text := s[line.end..b];
      assert forall k :: 0 <= k < |text| ==> text[k] == run[k];
      TwoOrFour(text);
    }
  }

  lemma TwoOrFour(text: string)
    ensures text == "\n\n" <==> |text| == 2 && text[0] == '\n' && text[1] == '\n'
    ensures text == "\r\n\r\n" <==>
            |text| == 4 && text[0] == '\r' && text[1] == '\n' && text[2] == '\r' && text[3] == '\n'
  {
  }

  /** No line but the first is empty, or ends in the break that follows it. */
  lemma {:induction false} LineNotEmpty(s: string, begin: nat, i: nat)
    requires begin < |s| && !LineEnd(s[begin]) && i < |LinesFrom(s, begin)|
    ensures var line := LinesFrom(s, begin)[i]; line.In(s) && line.begin < line.end && !LineEnd(s[line.end - 1])
    decreases |s| - begin
  {
    var line := ReadAt(s, begin);
    ReadIsLine(s, begin);
    if i > 0 {
      LineNotEmpty(s, line.next, i - 1);
    }
  }

  /** Where the headers of a request begin. */
  function HeadersBegin(s: string): (r: nat)
    ensures r <= |s|
  {
    if s == [] then 0 else ReadAt(s, 0).next
  }

  lemma EndsEmpty(s: string, begin: nat, i: nat, b: nat)
    requires begin < |s| && !LineEnd(s[begin]) && i < |LinesFrom(s, begin)|
    requires BreakOf(s, LinesFrom(s, begin)[i]) == Some(b)
    ensures EmptyLine(s, LinesFrom(s, begin)[i].end, b)
  {
    LineNotEmpty(s, begin, i);
    BreakIs(s, LinesFrom(s, begin)[i], b);
  }

  lemma MatchedIn(s: string, begin: nat, i: nat, b: nat)
    requires begin < |s| && !LineEnd(s[begin]) && CompleteAt(s, LinesFrom(s, begin), i, b)
    ensures var r := CheckHeaders(s, begin, 0);
      && StopsAt(r, b)
      && if KeyBefore(s, begin) then r.at == |s| else EmptyLine(s, r.at, b)
  {
    Decision(s, begin, 0, i);
    KeyFound(s, begin, i);
    EndsEmpty(s, begin, i, b);
  }

  lemma HeadersStart(s: string)
    requires s != []
    ensures var begin := HeadersBegin(s); begin < |s| ==> !LineEnd(s[begin])
  {
    ReadIsLine(s, 0);
  }

  lemma WhereMatched(s: string, b: nat)
    requires Complete(s, b)
    ensures var r := CheckHttp(s); StopsAt(r, b) && if KeyBefore(s, HeadersBegin(s)) then r.at == |s| else EmptyLine(s, r.at, b)
  {
    var i: nat :| CompleteAt(s, HeaderLines(s), i, b);
    AfterRequestLine(s);
    HeadersStart(s);
    MatchedIn(s, HeadersBegin(s), i, b);
  }

  lemma Answer(s: string, maxSize: int)
    requires 16 <= |s| <= maxSize && s[0] != '<'
    ensures CheckRequest(s, maxSize) ==
      match CheckHttp(s) { case More => (0, false) case Matched(at, _) => (at, true) case Failed(_) => (|s|, true) }
    ensures CheckHttp(s).Failed? <==> BadStart(s)
  {
    Sizes();
    AfterRequestLine(s);
  }

  /** A request of a size to look at: reading stops exactly when it is complete, or when its
      first line has ended and is no request line; and it stops behind the header lines (before
      the empty line that ends them), or at the end of the data when the body of a key request
      is in it and for an error. */
  lemma StopsWhenComplete(s: string, maxSize: int)
    requires 16 <= |s| <= maxSize && s[0] != '<'
    ensures var (at, stop) := CheckRequest(s, maxSize);
      && (stop <==> BadStart(s) || exists b :: Complete(s, b))
      && (!stop ==> at == 0)
      && (BadStart(s) ==> at == |s|)
      && (forall b :: Complete(s, b) ==> if KeyBefore(s, HeadersBegin(s)) then at == |s| else EmptyLine(s, at, b))
  {
    Answer(s, maxSize);
    forall b ensures StopsAt(CheckHttp(s), b) <==> Complete(s, b) {
      AcceptsComplete(s, b);
    }
    forall b | Complete(s, b)
      ensures if KeyBefore(s, HeadersBegin(s)) then CheckHttp(s).at == |s| else EmptyLine(s, CheckHttp(s).at, b)
    {
      WhereMatched(s, b);
    }
    if CheckHttp(s).Matched? { assert Complete(s, CheckHttp(s).headersBreak); }
  }

  lemma Sizes()
    ensures MinSize == 16 && PolicyRequestSize == 23
  {
  }

  /** The other cases: too little to be a request, too much, and a policy request, which is read
      up to its 23 bytes. */
  lemma StopsBySize(s: string, maxSize: int)
    ensures |s| < 16 ==> CheckRequest(s, maxSize) == (0, false)
    ensures 16 <= |s| && |s| > maxSize ==> CheckRequest(s, maxSize) == (|s|, true)
    ensures 16 <= |s| <= maxSize && s[0] == '<' ==>
      CheckRequest(s, maxSize) == if |s| >= 23 then (|s|, true) else (0, false)
  {
    Sizes();
  }
}
