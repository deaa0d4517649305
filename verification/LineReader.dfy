/** Reading lines with header folding: a line break followed by a blank continues the line.
    Models include/details/line_reader.hpp. */
module LineReader {
  import opened Text
  import opened Sequences

  /** A line that was read, `s[begin..end]`, and the break after it, `s[end..next]`. */
  datatype Line = Line(begin: nat, end: nat, next: nat, multiline: bool) {
    predicate In(s: string) {
      begin <= end <= next <= |s|
    }

    function Text(s: string): string
      requires In(s)
    {
      s[begin..end]
    }

    function Break(s: string): string
      requires In(s)
    {
      s[end..next]
    }
  }

  function ReadAt(s: string, begin: nat): (r: Line)
    requires begin < |s|
    ensures r.In(s) && r.begin == begin < r.next
  {
    ReadFrom(s, begin, begin, false)
  }

  function ReadFrom(s: string, begin: nat, position: nat, multiline: bool): (r: Line)
    requires begin <= position < |s|
    ensures r.In(s) && r.begin == begin && position <= r.end && position < r.next
    decreases |s| - position
  {
    var end := Find(s, position, LineEnd);
    var next := FindNot(s, end, LineEnd);
    if end == |s| || next == |s| || !Blank(s[next]) then Line(begin, end, next, multiline)
    else ReadFrom(s, begin, next, true)
  }

  /** A line, said without reading: `s[begin..end]` is followed by the maximal CR/LF run
      `s[end..next]`, no blank follows that run, and a blank follows each run inside the line. */
  ghost predicate IsLine(s: string, begin: nat, line: Line) {
    && line.In(s) && line.begin == begin
    && (line.end < |s| ==> LineEnd(s[line.end]))
    && (line.end > begin ==> !LineEnd(s[line.end - 1]))
    && (forall k :: line.end <= k < line.next ==> LineEnd(s[k]))
    && (line.next < |s| ==> !LineEnd(s[line.next]) && !Blank(s[line.next]))
    && Folded(line.Text(s))
    && (line.multiline <==> exists k :: begin <= k < line.end && LineEnd(s[k]))
  }

  /** Each CR/LF run inside the text is followed by a blank. */
  ghost predicate Folded(text: string) {
    forall j, k :: 0 <= j < k < |text| && j + 1 == k && LineEnd(text[j]) && !LineEnd(text[k]) ==> Blank(text[k])
  }

  /** `read_line` finds a line. */
  lemma ReadIsLine(s: string, begin: nat)
    requires begin < |s|
    ensures IsLine(s, begin, ReadAt(s, begin))
  {
    ReadFromIsLine(s, begin, begin, false);
  }

  lemma {:induction false} ReadFromIsLine(s: string, begin: nat, position: nat, multiline: bool)
    requires begin <= position < |s|
    requires position > begin ==> Blank(s[position]) && LineEnd(s[position - 1])
    requires Folded(s[begin..position])
    requires multiline <==> exists k :: begin <= k < position && LineEnd(s[k])
    ensures IsLine(s, begin, ReadFrom(s, begin, position, multiline))
    decreases |s| - position
  {
    var end := Find(s, position, LineEnd);
    var next := FindNot(s, end, LineEnd);
    FoldedTo(s, begin, position, end);
    if end < |s| && next < |s| && Blank(s[next]) {
      FoldedTo(s, begin, position, next);
      assert LineEnd(s[end]);
      ReadFromIsLine(s, begin, next, true);
    }
  }

  lemma FoldedTo(s: string, begin: nat, position: nat, end: nat)
    requires begin <= position < |s| && position <= end <= |s|
    requires position > begin ==> Blank(s[position])
    requires Folded(s[begin..position])
    requires forall k :: position < k < end && LineEnd(s[k - 1]) ==> LineEnd(s[k])
    ensures Folded(s[begin..end])
  {
    var text, before := s[begin..end], s[begin..position];
    assert forall k :: 0 <= k < |text| ==> text[k] == s[begin + k];
    forall j, k | 0 <= j < k < |text| && j + 1 == k && LineEnd(text[j]) && !LineEnd(text[k]) ensures Blank(text[k]) {
      if begin + k < position {
        assert before[j] == text[j] && before[k] == text[k];
      } else if begin + k > position {
        assert false;
      }
    }
  }

  /** And there is only one. */
  lemma OneLine(s: string, begin: nat, a: Line, b: Line)
    requires IsLine(s, begin, a) && IsLine(s, begin, b)
    ensures a == b
  {
    NoShorterLine(s, begin, a, b);
    NoShorterLine(s, begin, b, a);
  }

  lemma NoShorterLine(s: string, begin: nat, a: Line, b: Line)
    requires IsLine(s, begin, a) && IsLine(s, begin, b)
    ensures a.end >= b.end
  {
    if a.end < b.end {
      assert LineEnd(s[a.end]) && !LineEnd(s[b.end - 1]);
      FoldedAt(s, begin, b.end, a.next);
    }
  }

  lemma FoldedAt(s: string, begin: nat, end: nat, k: nat)
    requires begin < k < end <= |s| && Folded(s[begin..end]) && LineEnd(s[k - 1]) && !LineEnd(s[k])
    ensures Blank(s[k])
  {
    var text := s[begin..end];
    assert text[k - 1 - begin] == s[k - 1] && text[k - begin] == s[k];
  }

  /** Repeated reading. */
  function LinesFrom(s: string, begin: nat): (r: seq<Line>)
    requires begin <= |s|
    ensures forall k :: 0 <= k < |r| ==> r[k].In(s)
    decreases |s| - begin
  {
    if begin == |s| then []
    else var line := ReadAt(s, begin); [line] + LinesFrom(s, line.next)
  }

  /** What the lines stand for in the text. */
  function Joined(s: string, lines: seq<Line>): string
    requires forall k :: 0 <= k < |lines| ==> lines[k].In(s)
  {
    if lines == [] then [] else lines[0].Text(s) + lines[0].Break(s) + Joined(s, lines[1..])
  }

  /** A division of the text into lines, each starting where the break of the one before ends. */
  ghost predicate Division(s: string, begin: nat, lines: seq<Line>)
    decreases |lines|
  {
    if lines == [] then begin == |s|
    else begin < |s| && IsLine(s, begin, lines[0]) && Division(s, lines[0].next, lines[1..])
  }

  lemma Parts(s: string, line: Line)
    requires line.In(s)
    ensures line.Text(s) + line.Break(s) + s[line.next..] == s[line.begin..]
  {
  }

  /** Reading loses nothing: the lines and their breaks, joined, are the text. */
  lemma {:induction false} Lossless(s: string, begin: nat)
    requires begin <= |s|
    ensures Joined(s, LinesFrom(s, begin)) == s[begin..]
    decreases |s| - begin
  {
    if begin < |s| {
      var line := ReadAt(s, begin);
      Lossless(s, line.next);
      Tail(line, LinesFrom(s, line.next));
      Parts(s, line);
    }
  }

  /** Reading divides the text into lines, and any division into lines is the one it finds. */
  lemma {:induction false} LinesAreTheDivision(s: string, begin: nat, lines: seq<Line>)
    requires begin <= |s|
    ensures Division(s, begin, lines) <==> lines == LinesFrom(s, begin)
    decreases |s| - begin
  {
    if begin < |s| {
      var line := ReadAt(s, begin);
      ReadIsLine(s, begin);
      assert LinesFrom(s, begin)[1..] == LinesFrom(s, line.next);
      if lines != [] && IsLine(s, begin, lines[0]) {
        OneLine(s, begin, line, lines[0]);
        LinesAreTheDivision(s, line.next, lines[1..]);
        assert lines == [line] + lines[1..];
      } else {
        assert LinesFrom(s, begin)[0] == line;
      }
    }
  }

  /** Every line after the first starts with a byte that is neither blank nor part of a break. */
  lemma {:induction false} LaterLinesStart(s: string, begin: nat, i: nat)
    requires begin <= |s| && i + 1 < |LinesFrom(s, begin)|
    ensures var at := LinesFrom(s, begin)[i].next; at < |s| && !Blank(s[at]) && !LineEnd(s[at])
    decreases |s| - begin
  {
    var line := ReadAt(s, begin);
    ReadIsLine(s, begin);
    if i > 0 {
      LaterLinesStart(s, line.next, i - 1);
    }
  }

  class Reader {
    const s: string
    var begin: nat
    var multiline: bool

    ghost predicate Valid()
      reads this
    {
      begin <= |s|
    }

    constructor (s: string)
      ensures this.s == s && begin == 0 && !multiline && Valid()
    {
      this.s, begin, multiline := s, 0, false;
    }

    method ReadLine() returns (ok: bool, line: Line)
      requires Valid()
      modifies this
      ensures Valid() && ok == (old(begin) < |s|)
      ensures ok ==> line == ReadAt(s, old(begin)) && begin == line.next && multiline == line.multiline
      ensures !ok ==> begin == old(begin) && multiline == old(multiline)
    {
      line := Line(begin, begin, begin, false);
      if begin == |s| {
        return false, line;
      }
      multiline := false;
      var position := begin;
      while true
        invariant begin <= position < |s| && begin == old(begin)
        invariant ReadAt(s, begin) == ReadFrom(s, begin, position, multiline)
        decreases |s| - position
      {
        var end := Find(s, position, LineEnd);
        var next := FindIfNot(s, end, LineEnd);
        line := Line(begin, end, next, multiline);
        if end == |s| || next == |s| {
          begin := |s|;
          return true, line;
        }
        if !Blank(s[next]) {
          begin := next;
          return true, line;
        }
        multiline := true;
        position := next;
      }
    }
  }
}
