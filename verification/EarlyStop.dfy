/** A request that reading stops at too soon: the checker takes the folded method for an error,
    the parser does not, and the headers are still coming. */
module EarlyStop {
  import opened Text
  import opened LineReader
  import opened Request
  import opened RequestChecker
  import opened RequestAgreement
  import opened Unfolding
  import opened QueryString
  import opened Sequences

  const Rest := [' '] + ("/" + [' '] + "HTTP/1.1")
  const FoldedMethod := "GET" + (['\n'] + Rest) + "\na:b"

  lemma FoldedLine()
    ensures var line := Line(0, 15, 16, true); ReadAt(FoldedMethod, 0) == line && line.Text(FoldedMethod) == "GET" + (['\n'] + Rest)
  {
    var s, line := FoldedMethod, Line(0, 15, 16, true);
    assert s[3] == '\n';
    assert IsLine(s, 0, line);
    ReadIsLine(s, 0);
    OneLine(s, 0, ReadAt(s, 0), line);
  }

  lemma SkipOne(before: string, after: string)
    requires NoLineEnd(before) && NoLineEnd(after)
    ensures Unbroken(before + (['\n'] + after)) == before + after
  {
    UnbrokenAppend(before, ['\n'] + after);
    UnbrokenBreak(after);
    UnbrokenClean(before);
    UnbrokenClean(after);
  }

  lemma UnbrokenBreak(after: string)
    ensures Unbroken(['\n'] + after) == Unbroken(after)
  {
    UnbrokenFront('\n', after);
  }

  lemma Skipped()
    ensures Unbroken("GET" + (['\n'] + Rest)) == "GET" + [' '] + ("/" + [' '] + "HTTP/1.1")
  {
    SkipOne("GET", Rest);
    Assoc("GET", [' '], "/" + [' '] + "HTTP/1.1");
  }

  lemma SecondLine()
    ensures var s, line := FoldedMethod, Line(16, 19, 19, false);
      |s| == 19 && ReadAt(s, 16) == line && line.Text(s) == "a" + [':'] + "b" && line.Break(s) == []
  {
    var s, line := FoldedMethod, Line(16, 19, 19, false);
    assert IsLine(s, 16, line);
    ReadIsLine(s, 16);
    OneLine(s, 16, ReadAt(s, 16), line);
  }

  lemma Field(r: Parsed)
    ensures WithHeader(r, "a" + [':'] + "b").Ok?
  {
    SplitAt("a", ':', "b", Colon);
    assert TrimRight("a") == "a";
  }

  lemma HeaderLine(r: Parsed)
    ensures WithHeaders(r, FoldedMethod, 16).Ok?
  {
    SecondLine();
    Field(r);
    TurnTaken(r, FoldedMethod, 16);
    TurnFollowed(r, FoldedMethod, 16);
  }

  lemma Parses()
    ensures Parse(FoldedMethod).Ok?
  {
    FoldedLine();
    Skipped();
    TargetRoundTrip("/");
    HeaderLine(Begun("/"));
  }

  /** Where the test fails, reading stops, with no complete request. */
  lemma StopsWhereFailed(s: string, maxSize: int)
    requires CheckHttp(s).Failed? && MinSize <= |s| <= maxSize && s[0] != '<'
    ensures CheckRequest(s, maxSize) == (|s|, true) && forall b :: !Complete(s, b)
  {
    forall b ensures !Complete(s, b) {
      AcceptsComplete(s, b);
    }
  }

  /** The match condition stops there, though no line has ended the headers, and the parser
      takes what there is for a whole request. */
  lemma StopsTooSoon()
    ensures var s := FoldedMethod;
      && CheckRequest(s, 100) == (|s|, true)
      && Parse(s).Ok?
      && forall b :: !Complete(s, b)
  {
    Parses();
    CheckFails();
    assert FoldedMethod[0] == 'G' && |FoldedMethod| == 19;
    StopsWhereFailed(FoldedMethod, 100);
  }

  lemma CheckFails()
    ensures CheckHttp(FoldedMethod).Failed?
  {
    Parses();
    FoldedLine();
    ThrowsApart(FoldedMethod);
    assert FoldedMethod[3] == '\n';
  }
}
