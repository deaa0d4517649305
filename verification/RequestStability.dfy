/** What more data do to a request that was accepted. */
module RequestStability {
  import opened Text
  import opened LineReader
  import opened Request
  import opened RequestChecker
  import opened RequestAgreement

  lemma FindExtended(p: string, q: string, begin: nat)
    requires begin <= |p|
    ensures Find(p, begin, LineEnd) < |p| ==> Find(p + q, begin, LineEnd) == Find(p, begin, LineEnd)
  {
    var i, j := Find(p, begin, LineEnd), Find(p + q, begin, LineEnd);
    assert forall k :: 0 <= k < |p| ==> (p + q)[k] == p[k];
  }

  lemma FindNotExtended(p: string, q: string, begin: nat)
    requires begin <= |p|
    ensures var i, j := FindNot(p, begin, LineEnd), FindNot(p + q, begin, LineEnd);
      j == if i < |p| then i else FindNot(p + q, |p|, LineEnd)
  {
    var i, j := FindNot(p, begin, LineEnd), FindNot(p + q, begin, LineEnd);
    assert forall k :: 0 <= k < |p| ==> (p + q)[k] == p[k];
    if i == |p| {
      SkipTo(p + q, begin, |p|);
    }
  }

  lemma {:induction false} SkipTo(s: string, begin: nat, end: nat)
    requires begin <= end <= |s| && forall k :: begin <= k < end ==> LineEnd(s[k])
    ensures FindNot(s, begin, LineEnd) == FindNot(s, end, LineEnd)
    decreases end - begin
  {
    if begin < end {
      SkipTo(s, begin + 1, end);
    }
  }

  /** A line whose break is followed by something stays; one whose break reaches the end of the
      data grows by the breaks that follow, unless a blank then folds it. */
  lemma {:induction false} ReadExtended(p: string, q: string, begin: nat, position: nat, multiline: bool)
    requires begin <= position < |p|
    ensures var s := p + q; var n := FindNot(s, |p|, LineEnd);
      var line, longer := ReadFrom(p, begin, position, multiline), ReadFrom(s, begin, position, multiline);
      && (line.next < |p| ==> longer == line)
      && (line.end < |p| && line.next == |p| ==>
            longer == if n == |s| || !Blank(s[n]) then Line(begin, line.end, n, line.multiline)
                      else ReadFrom(s, begin, n, true))
    decreases |p| - position
  {
    FindExtended(p, q, position);
    var end := Find(p, position, LineEnd);
    if end < |p| {
      FindNotExtended(p, q, end);
      var next := FindNot(p, end, LineEnd);
      if next < |p| {
        assert (p + q)[next] == p[next];
        if Blank(p[next]) {
          ReadExtended(p, q, begin, next, true);
        }
      }
    }
  }

  lemma BreakExtends(run: string, more: string)
    requires HeadersBreak(run).Some?
    ensures HeadersBreak(run + more) == HeadersBreak(run)
  {
    var longer := run + more;
    assert forall k :: 0 <= k < |run| ==> longer[k] == run[k];
  }

  lemma {:induction false} MatchIsLater(s: string, begin: nat, ahead: nat)
    requires begin < |s| && CheckHeaders(s, begin, ahead).Matched?
    ensures CheckHeaders(s, begin, ahead).headersBreak > ReadAt(s, begin).end
    decreases |s| - begin
  {
    var line := ReadAt(s, begin);
    CheckTurn(s, begin, ahead);
    if !EndsHeaders(s, line, ahead) && line.next < |s| {
      MatchIsLater(s, line.next, Ahead(s, line, ahead));
    }
  }

  /** No blank follows the CR/LF run in which the break lies. */
  predicate NotFolded(s: string, b: nat)
    requires b <= |s|
  {
    var n := FindNot(s, b, LineEnd);
    n == |s| || !Blank(s[n])
  }

  /** The same line in longer data. */
  lemma SameLine(p: string, q: string, line: Line)
    requires line.In(p)
    ensures line.In(p + q) && line.Text(p + q) == line.Text(p) && line.Break(p + q) == line.Break(p)
  {
  }

  /** The line at which the checker stops, when its break cannot grow. */
  lemma InnerLine(p: string, q: string, begin: nat, ahead: nat)
    requires begin < |p| && EndsHeaders(p, ReadAt(p, begin), ahead) && ReadAt(p, begin).next < |p|
    ensures var b := BreakOf(p, ReadAt(p, begin)).value;
      StopsAt(CheckHeaders(p + q, begin, ahead), b) && NotFolded(p + q, b)
  {
    var line := ReadAt(p, begin);
    var b := BreakOf(p, line).value;
    ReadIsLine(p, begin);
    ReadExtended(p, q, begin, begin, false);
    SameLine(p, q, line);
    CheckTurn(p + q, begin, ahead);
    SkipTo(p, b, line.next);
    FindNotExtended(p, q, b);
    assert (p + q)[line.next] == p[line.next];
  }

  /** The line at which the checker stops, when its break reaches the end of the data. */
  lemma LastLine(p: string, q: string, begin: nat, ahead: nat)
    requires begin < |p| && EndsHeaders(p, ReadAt(p, begin), ahead) && ReadAt(p, begin).next == |p|
    ensures var b := BreakOf(p, ReadAt(p, begin)).value;
      StopsAt(CheckHeaders(p + q, begin, ahead), b) <==> NotFolded(p + q, b)
  {
    var s, line := p + q, ReadAt(p, begin);
    var b, n := BreakOf(p, line).value, FindNot(s, |p|, LineEnd);
    ReadIsLine(p, begin);
    ReadExtended(p, q, begin, begin, false);
    SkipTo(p, b, |p|);
    FindNotExtended(p, q, b);
    if NotFolded(s, b) {
      GrownLine(p, q, line, n);
      CheckTurn(s, begin, ahead);
    } else if CheckHeaders(s, begin, ahead).Matched? {
      MatchIsLater(s, begin, ahead);
    }
  }

  lemma GrownLine(p: string, q: string, line: Line, n: nat)
    requires line.In(p) && line.next == |p| <= n <= |p + q| && BreakOf(p, line).Some?
    ensures var longer := Line(line.begin, line.end, n, line.multiline);
      && longer.In(p + q)
      && longer.Text(p + q) == line.Text(p)
      && BreakOf(p + q, longer) == BreakOf(p, line)
  {
    var longer := Line(line.begin, line.end, n, line.multiline);
    assert longer.Break(p + q) == line.Break(p) + (p + q)[|p|..n];
    BreakExtends(line.Break(p), (p + q)[|p|..n]);
  }

  lemma {:induction false} HeadersStable(p: string, q: string, begin: nat, ahead: nat, b: nat)
    requires begin <= |p| && (ahead == 0 || ahead == KeyBodySize) && StopsAt(CheckHeaders(p, begin, ahead), b)
    ensures b <= |p| && (StopsAt(CheckHeaders(p + q, begin, ahead), b) <==> NotFolded(p + q, b))
    decreases |p| - begin
  {
    var line := ReadAt(p, begin);
    CheckTurn(p, begin, ahead);
    if EndsHeaders(p, line, ahead) {
      if line.next < |p| {
        InnerLine(p, q, begin, ahead);
      } else {
        LastLine(p, q, begin, ahead);
      }
    } else {
      PassedLine(p, q, begin, ahead);
      HeadersStable(p, q, line.next, Ahead(p, line, ahead), b);
    }
  }

  /** A line that the checker passes before it accepts has no break, and stays. */
  lemma PassedLine(p: string, q: string, begin: nat, ahead: nat)
    requires begin < |p| && (ahead == 0 || ahead == KeyBodySize)
    requires CheckHeaders(p, begin, ahead).Matched? && !EndsHeaders(p, ReadAt(p, begin), ahead)
    ensures var line := ReadAt(p, begin); var next := Ahead(p, line, ahead);
      && line.next < |p| && CheckHeaders(p, begin, ahead) == CheckHeaders(p, line.next, next)
      && CheckHeaders(p + q, begin, ahead) == CheckHeaders(p + q, line.next, next)
  {
    var line := ReadAt(p, begin);
    CheckTurn(p, begin, ahead);
    if BreakOf(p, line).Some? {
      NoLateMatch(p, line.next);
      assert false;
    } else {
      ReadExtended(p, q, begin, begin, false);
      SameLine(p, q, line);
      CheckTurn(p + q, begin, ahead);
    }
  }

  /** If `p` is accepted then `p + q` is, with the same header break, exactly when no blank
      follows the CR/LF run of that break: a blank there folds the break away. */
  lemma AcceptanceStable(p: string, q: string)
    requires CheckHttp(p).Matched?
    ensures var b := CheckHttp(p).headersBreak;
      b <= |p| && (StopsAt(CheckHttp(p + q), b) <==> NotFolded(p + q, b))
  {
    var b, line := CheckHttp(p).headersBreak, ReadAt(p, 0);
    AfterRequestLine(p);
    AfterRequestLine(p + q);
    HeadersStable(p, q, line.next, 0, b);
    ReadExtended(p, q, 0, 0, false);
    SameLine(p, q, line);
  }

  /** In particular, whatever follows that does not go on, after CR/LF, with a blank. */
  lemma StableUnlessBlank(p: string, q: string)
    requires CheckHttp(p).Matched?
    requires FindNot(q, 0, LineEnd) < |q| ==> !Blank(q[FindNot(q, 0, LineEnd)])
    ensures StopsAt(CheckHttp(p + q), CheckHttp(p).headersBreak)
  {
    AcceptanceStable(p, q);
    AcceptanceStable(p, []);
    assert p + [] == p;
    StillNotFolded(p, q, CheckHttp(p).headersBreak);
  }

  lemma StillNotFolded(p: string, q: string, b: nat)
    requires b <= |p| && NotFolded(p, b)
    requires FindNot(q, 0, LineEnd) < |q| ==> !Blank(q[FindNot(q, 0, LineEnd)])
    ensures NotFolded(p + q, b)
  {
    FindNotExtended(p, q, b);
    RunOf(p, q);
    assert forall k :: 0 <= k < |p| ==> (p + q)[k] == p[k];
    assert forall k :: 0 <= k < |q| ==> (p + q)[|p| + k] == q[k];
  }

  lemma RunOf(p: string, q: string)
    ensures FindNot(p + q, |p|, LineEnd) == |p| + FindNot(q, 0, LineEnd)
  {
    var s, k := p + q, FindNot(q, 0, LineEnd);
    assert forall j :: 0 <= j < |q| ==> s[|p| + j] == q[j];
    assert forall j :: |p| <= j < |p| + k ==> s[j] == q[j - |p|];
    SkipTo(s, |p|, |p| + k);
  }
}
