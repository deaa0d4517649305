/** Deciding, as data arrive, whether a request is complete.
    Models include/details/request_checker.hpp. */
module RequestChecker {
  import opened LineReader
  import opened Request

  /** Go on reading; or stop at position `at`, with the headers ended at `headersBreak`;
      or the error the source throws. */
  datatype Checked = More | Matched(at: nat, headersBreak: nat) | Failed(error: HttpError)

  function Ahead(s: string, line: Line, readBodyAhead: nat): nat
    requires line.In(s)
  {
    var res := ReadBodyAhead(line.Text(s));
    if res > 0 then res else readBodyAhead
  }

  /** Whether the headers end after `line` and the body needed is there. */
  function CheckLine(s: string, line: Line, ahead: nat): (r: Checked)
    requires line.In(s)
    ensures !r.Failed?
  {
    var found := HeadersBreak(line.Break(s));
    if found.Some? && ahead == 0 then Matched(line.end, line.end + found.value)
    else if found.Some? && |s| - (line.end + found.value) >= ahead then Matched(|s|, line.end + found.value)
    else More
  }

  function CheckHeaders(s: string, begin: nat, readBodyAhead: nat): (r: Checked)
    requires begin <= |s|
    ensures !r.Failed?
    decreases |s| - begin
  {
    if begin == |s| then More
    else
      var line := ReadAt(s, begin);
      var ahead := Ahead(s, line, readBodyAhead);
      var here := CheckLine(s, line, ahead);
      if here.Matched? then here else CheckHeaders(s, line.next, ahead)
  }

  function CheckHttp(s: string): Checked {
    if s == [] then More
    else
      var line := ReadAt(s, 0);
      if line.end == line.next then More
      else
        var uri := ParseRequestLine(line.Text(s));
        if uri.Err? then Failed(uri.error) else CheckHeaders(s, line.next, 0)
  }

  const MinSize := |"get / http/1.1\n\n"|
  const PolicyRequestSize := |"<policy-file-request/>"| + 1

  /** The match condition handed to the socket: where it stops, and whether it does. */
  function CheckRequest(s: string, maxSize: int): (nat, bool) {
    if |s| < MinSize then (0, false)
    else if |s| > maxSize then (|s|, true)
    else if s[0] == '<' then
      if |s| < PolicyRequestSize then (0, false) else (|s|, true)
    else
      match CheckHttp(s)
      case More => (0, false)
      case Matched(at, _) => (at, true)
      case Failed(_) => (|s|, true)
  }

  method HttpRequestChecker(s: string) returns (r: Checked)
    ensures r == CheckHttp(s)
  {
    var reader := new Reader(s);
    var ok, line := reader.ReadLine();
    if ok && line.end != line.next {
      var uri := ParseRequestLine(line.Text(s));
      if uri.Err? {
        return Failed(uri.error);
      }
      r := HeaderLinesChecker(reader);
      return;
    }
    return More;
  }

  /** What the loop body makes of one header line. */
  method HeaderLineChecker(s: string, line: Line, readBodyAhead: nat) returns (r: Checked)
    requires line.In(s)
    ensures r == CheckLine(s, line, readBodyAhead)
  {
    var found := HeadersBreak(line.Break(s));
    if found.Some? {
      var breakPtr := line.end + found.value;
      if readBodyAhead == 0 {
        return Matched(line.end, breakPtr);
      }
      if |s| - breakPtr >= readBodyAhead {
        return Matched(|s|, breakPtr);
      }
    }
    return More;
  }

  /** The loop over the header lines that the reader has left. */
  method HeaderLinesChecker(reader: Reader) returns (r: Checked)
    requires reader.Valid()
    modifies reader
    ensures r == CheckHeaders(reader.s, old(reader.begin), 0)
  {
    var s, begin, readBodyAhead := reader.s, reader.begin, 0;
    ghost var all := CheckHeaders(s, begin, 0);
    var ok, line := reader.ReadLine();
    while ok
      invariant reader.Valid() && begin <= |s| && ok == (begin < |s|)
      invariant ok ==> line == ReadAt(s, begin) && reader.begin == line.next
      invariant all == CheckHeaders(s, begin, readBodyAhead)
      decreases |s| - begin
    {
      ghost var ahead := Ahead(s, line, readBodyAhead);
      var res := ReadBodyAhead(line.Text(s));
      if res > 0 {
        readBodyAhead := res;
      }
      assert readBodyAhead == ahead;
      r := HeaderLineChecker(s, line, readBodyAhead);
      if r.Matched? {
        return;
      }
      begin := reader.begin;
      ok, line := reader.ReadLine();
    }
    return More;
  }

  method RequestChecker(s: string, maxSize: int) returns (r: (nat, bool))
    ensures r == CheckRequest(s, maxSize)
  {
    if |s| < MinSize {
      return (0, false);
    }
    if |s| > maxSize {
      return (|s|, true);
    }
    if '<' == s[0] {
      if |s| < PolicyRequestSize {
        return (0, false);
      }
      return (|s|, true);
    }
    var checked := HttpRequestChecker(s);
    match checked {
      case More => return (0, false);
      case Matched(at, _) => return (at, true);
      case Failed(_) => return (|s|, true);
    }
  }
}
