/** The chunks a message is written in on a plain HTTP connection. Models
    `print_message_content` and `print_last_message` of library/connection_base.cpp, against
    a reader of the chunked coding (section 4.1 of RFC 7230). */
module Chunks {
  import opened Sequences
  import opened Wrappers

  const Endl := "\r\n"

  function HexDigit(n: int): char
    requires 0 <= n < 16
  {
    if n < 10 then '0' + n as char else 'a' + (n - 10) as char
  }

  /** A stream's `std::hex`. */
  function Hex(n: nat): (r: string)
    ensures r != []
  {
    if n < 16 then [HexDigit(n)] else Hex(n / 16) + [HexDigit(n % 16)]
  }

  function Chunk(content: string): string {
    Hex(|content|) + Endl + content + Endl
  }

  const LastChunk := "0" + Endl

  /** Nothing is printed for an empty message. */
  function Printed(content: string): string {
    if content == [] then [] else Chunk(content)
  }

  function Stream(contents: seq<string>): string {
    if contents == [] then [] else Printed(contents[0]) + Stream(contents[1..])
  }

  method PrintMessageContent(buf: string, content: string) returns (printed: bool, out: string)
    ensures printed == (content != []) && out == buf + Printed(content)
  {
    if content == [] {
      return false, buf;
    }
    out := buf + (Hex(|content|) + Endl + content + Endl);
    return true, out;
  }

  // A reader of chunks.

  /** HEXDIG of RFC 5234, in either case. */
  function HexValue(c: char): (r: int)
    ensures -1 <= r < 16
  {
    if '0' <= c <= '9' then c as int - '0' as int
    else if 'a' <= c <= 'f' then c as int - 'a' as int + 10
    else if 'A' <= c <= 'F' then c as int - 'A' as int + 10
    else -1
  }

  /** The number that starts with the digits read so far, and what follows its last digit. */
  function ReadHex(s: string, value: nat): (r: (nat, string))
    ensures |r.1| <= |s|
  {
    if s == [] || HexValue(s[0]) < 0 then (value, s) else ReadHex(s[1..], 16 * value + HexValue(s[0]))
  }

  datatype Piece = Bad | Last(rest: string) | Data(content: string, rest: string)

  /** One chunk without extensions, or the last-chunk up to its line end. */
  function ReadChunk(s: string): (r: Piece)
    ensures r.Data? ==> |r.rest| < |s| && r.content != []
  {
    if s == [] || HexValue(s[0]) < 0 then Bad
    else
      var (size, after) := ReadHex(s, 0);
      if !(Endl <= after) then Bad
      else if size == 0 then Last(after[2..])
      else if |after| < 2 + size + 2 || after[2 + size..2 + size + 2] != Endl then Bad
      else Data(after[2..2 + size], after[2 + size + 2..])
  }

  /** Chunks up to the last-chunk, and what follows that (trailers and a final CRLF). */
  function ReadBody(s: string): Option<(seq<string>, string)>
    decreases |s|
  {
    match ReadChunk(s)
    case Bad => None
    case Last(rest) => Some(([], rest))
    case Data(content, rest) =>
      var more := ReadBody(rest);
      if more.None? then None else Some(([content] + more.value.0, more.value.1))
  }

  lemma HexDigitValue(n: int)
    requires 0 <= n < 16
    ensures HexValue(HexDigit(n)) == n
  {
  }

  lemma {:induction false} HexReads(n: nat, rest: string)
    ensures ReadHex(Hex(n) + rest, 0) == ReadHex(rest, n) && HexValue(Hex(n)[0]) >= 0
    ensures n > 0 ==> HexValue(Hex(n)[0]) > 0
  {
    var digit := HexDigit(n % 16);
    HexDigitValue(n % 16);
    if n < 16 {
      assert ([digit] + rest)[1..] == rest;
    } else {
      HexReads(n / 16, [digit] + rest);
      assert Hex(n) + rest == Hex(n / 16) + ([digit] + rest);
      assert ([digit] + rest)[1..] == rest;
    }
  }

  /** A printed chunk is read back, whatever follows; its size is not zero. */
  lemma ChunkReads(content: string, rest: string)
    requires content != []
    ensures ReadChunk(Chunk(content) + rest) == Data(content, rest)
  {
    var after := Endl + (content + (Endl + rest));
    var s := Chunk(content) + rest;
    HexReads(|content|, after);
    assert s == Hex(|content|) + after;
    assert s[0] == Hex(|content|)[0];
    assert HexValue('\r') < 0;
    assert ReadHex(after, |content|) == (|content|, after);
    AfterSize(content, rest);
  }

  lemma AfterSize(content: string, rest: string)
    ensures var after, n := Endl + (content + (Endl + rest)), |content|;
      after[2..2 + n] == content && after[2 + n..2 + n + 2] == Endl && after[2 + n + 2..] == rest
  {
  }

  lemma LastReads(rest: string)
    ensures ReadChunk(LastChunk + rest) == Last(rest)
  {
    var s := LastChunk + rest;
    assert s[1..] == Endl + rest;
    assert HexValue('\r') < 0 && HexValue('0') == 0;
    assert ReadHex(Endl + rest, 0) == (0, Endl + rest);
    assert (Endl + rest)[2..] == rest;
  }

  function NonEmpty(contents: seq<string>): (r: seq<string>)
    ensures forall k :: 0 <= k < |r| ==> r[k] != []
  {
    if contents == [] then []
    else (if contents[0] == [] then [] else [contents[0]]) + NonEmpty(contents[1..])
  }

  lemma ChunkThenBody(content: string, rest: string)
    requires content != []
    ensures ReadBody(Chunk(content) + rest) ==
            var more := ReadBody(rest); if more.None? then None else Some(([content] + more.value.0, more.value.1))
  {
    ChunkReads(content, rest);
  }

  /** What is printed for any messages, and then the last message, reads back as the non-empty
      ones in order, with no last-chunk among them; after it comes exactly what follows. */
  lemma {:induction false} StreamReads(contents: seq<string>, rest: string)
    ensures ReadBody(Stream(contents) + (LastChunk + rest)) == Some((NonEmpty(contents), rest))
  {
    var last := LastChunk + rest;
    if contents == [] {
      LastReads(rest);
      assert [] + last == last;
    } else {
      var more := Stream(contents[1..]);
      assert Stream(contents) == Printed(contents[0]) + more;
      StreamReads(contents[1..], rest);
      Assoc(Printed(contents[0]), more, last);
      if contents[0] == [] {
        assert [] + (more + last) == more + last;
        assert NonEmpty(contents) == NonEmpty(contents[1..]);
      } else {
        ChunkThenBody(contents[0], more + last);
      }
    }
  }

  /** A whole chunked-body without trailers ends in the CRLF that closes the trailer part. */
  ghost predicate ChunkedBody(s: string, contents: seq<string>) {
    ReadBody(s) == Some((contents, Endl))
  }

  /** What the connection sends lacks exactly that CRLF. */
  lemma LacksFinalEndl(contents: seq<string>)
    ensures ChunkedBody(Stream(contents) + LastChunk + Endl, NonEmpty(contents))
    ensures forall any :: !ChunkedBody(Stream(contents) + LastChunk, any)
  {
    StreamReads(contents, Endl);
    StreamReads(contents, []);
    assert LastChunk + [] == LastChunk;
    assert Stream(contents) + LastChunk + Endl == Stream(contents) + (LastChunk + Endl);
  }
}
