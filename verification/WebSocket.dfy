/** The frames a message is written in. Models `write_message` of library/websocket_info.cpp
    for connections that use the framing of RFC 6455, against a reader of that standard.
    A byte is a character below 256. */
module WebSocket {
  import opened Sequences
  import opened Wrappers

  const SmallMsgMaxSize := 125

  function Byte(n: int): char
    requires 0 <= n < 256
  {
    n as char
  }

  /** What follows the first frame of a message longer than one frame. */
  function Continued(rest: string): string {
    if |rest| > SmallMsgMaxSize then
      [Byte(0x00), Byte(125)] + rest[..SmallMsgMaxSize] + Continued(rest[SmallMsgMaxSize..])
    else [Byte(0x80), Byte(|rest|)] + rest
  }

  function Framed(msg: string): string {
    if |msg| <= SmallMsgMaxSize then [Byte(0x81), Byte(|msg|)] + msg
    else [Byte(0x01), Byte(125)] + msg[..SmallMsgMaxSize] + Continued(msg[SmallMsgMaxSize..])
  }

  method WriteMessage(stream: string, msg: string) returns (out: string)
    ensures out == stream + Framed(msg)
  {
    ghost var all := stream + Framed(msg);
    out := stream;
    var msgSize := |msg|;
    if msgSize <= SmallMsgMaxSize {
      out := out + ([Byte(0x81), Byte(msgSize)] + msg);
      return;
    }

    var str := 0;
    ContinueFirst(stream, msg);
    out := out + ([Byte(0x01), Byte(125)] + msg[..SmallMsgMaxSize]);
    str := str + SmallMsgMaxSize;
    msgSize := msgSize - SmallMsgMaxSize;

    while msgSize > SmallMsgMaxSize
      invariant 0 < msgSize && str + msgSize == |msg|
      invariant out + Continued(msg[str..]) == all
    {
      ContinueOnce(out, msg, str);
      out := out + ([Byte(0x00), Byte(125)] + msg[str..str + SmallMsgMaxSize]);
      str := str + SmallMsgMaxSize;
      msgSize := msgSize - SmallMsgMaxSize;
    }

    ContinueLast(out, msg, str);
    out := out + ([Byte(0x80), Byte(msgSize)] + msg[str..]);
  }

  lemma ContinueFirst(out: string, msg: string)
    requires |msg| > SmallMsgMaxSize
    ensures out + ([Byte(0x01), Byte(125)] + msg[..SmallMsgMaxSize]) + Continued(msg[SmallMsgMaxSize..]) ==
            out + Framed(msg)
  {
    Assoc(out, [Byte(0x01), Byte(125)] + msg[..SmallMsgMaxSize], Continued(msg[SmallMsgMaxSize..]));
  }

  lemma ContinueLast(out: string, msg: string, str: nat)
    requires str <= |msg| <= str + SmallMsgMaxSize
    ensures out + Continued(msg[str..]) == out + ([Byte(0x80), Byte(|msg| - str)] + msg[str..])
  {
  }

  lemma ContinueOnce(out: string, msg: string, str: nat)
    requires |msg| > str + SmallMsgMaxSize
    ensures out + Continued(msg[str..]) ==
            out + ([Byte(0x00), Byte(125)] + msg[str..str + SmallMsgMaxSize]) + Continued(msg[str + SmallMsgMaxSize..])
  {
    var frame := [Byte(0x00), Byte(125)] + msg[str..str + SmallMsgMaxSize];
    assert msg[str..][..SmallMsgMaxSize] == msg[str..str + SmallMsgMaxSize];
    assert msg[str..][SmallMsgMaxSize..] == msg[str + SmallMsgMaxSize..];
    Assoc(out, frame, Continued(msg[str + SmallMsgMaxSize..]));
  }

  // A reader of frames (section 5.2 of RFC 6455) from an endpoint that does not mask.

  datatype Frame = Frame(fin: bool, opcode: int, payload: string)
  datatype Read = Incomplete | Bad | Got(frame: Frame, rest: string)

  /** A number in network byte order. */
  function Number(s: string): nat {
    if s == [] then 0 else 256 * Number(s[..|s| - 1]) + s[|s| - 1] as int
  }

  /** How many bytes the extended payload length takes. */
  function ExtendedLength(length: int): nat {
    if length == 126 then 2 else if length == 127 then 8 else 0
  }

  function ReadFrame(s: string): (r: Read)
    ensures r.Got? ==> |r.rest| + 2 <= |s|
  {
    if |s| < 2 then Incomplete
    else
      var first, second := s[0] as int, s[1] as int;
      var extended := ExtendedLength(second % 128);
      var reserved, masked := (first / 16) % 8, second / 128;
      if reserved != 0 || masked != 0 then Bad
      else if |s| < 2 + extended then Incomplete
      else
        var length := if extended == 0 then second % 128 else Number(s[2..2 + extended]);
        if |s| < 2 + extended + length then Incomplete
        else Got(Frame(first / 128 == 1, first % 16, s[2 + extended..2 + extended + length]), s[2 + extended + length..])
  }

  function Frames(s: string): Option<seq<Frame>>
    decreases |s|
  {
    if s == [] then Some([])
    else
      match ReadFrame(s)
      case Incomplete => None
      case Bad => None
      case Got(frame, rest) =>
        var more := Frames(rest);
        if more.None? then None else Some([frame] + more.value)
  }

  /** Text messages out of frames (section 5.4): a message is one final text frame, or a text
      frame that is not final and continuation frames up to the first final one. */
  function Messages(frames: seq<Frame>, begun: Option<string>): Option<seq<string>> {
    if frames == [] then if begun.None? then Some([]) else None
    else
      var f := frames[0];
      if f.opcode != (if begun.None? then 1 else 0) then None
      else
        var text := (if begun.None? then [] else begun.value) + f.payload;
        if !f.fin then Messages(frames[1..], Some(text))
        else
          var more := Messages(frames[1..], None);
          if more.None? then None else Some([text] + more.value)
  }

  function Decoded(s: string): Option<seq<string>> {
    var frames := Frames(s);
    if frames.None? then None else Messages(frames.value, None)
  }

  // What the written frames are to that reader.

  function Split(rest: string): (r: seq<Frame>)
    ensures r != []
  {
    if |rest| > SmallMsgMaxSize then
      [Frame(false, 0, rest[..SmallMsgMaxSize])] + Split(rest[SmallMsgMaxSize..])
    else [Frame(true, 0, rest)]
  }

  function FramesOf(msg: string): (r: seq<Frame>)
    ensures r != []
  {
    if |msg| <= SmallMsgMaxSize then [Frame(true, 1, msg)]
    else [Frame(false, 1, msg[..SmallMsgMaxSize])] + Split(msg[SmallMsgMaxSize..])
  }

  /** `frames` read from the front of a stream, and the stream that is left. */
  ghost predicate Reads(s: string, frames: seq<Frame>, rest: string) {
    Frames(s) == if Frames(rest).None? then None else Some(frames + Frames(rest).value)
  }

  lemma OneFrame(s: string, first: int, frame: Frame, rest: string)
    requires 0 <= frame.opcode <= 1 && first == (if frame.fin then 0x80 else 0x00) + frame.opcode
    requires |frame.payload| <= SmallMsgMaxSize && s == [Byte(first), Byte(|frame.payload|)] + frame.payload + rest
    ensures Reads(s, [frame], rest)
  {
    assert s[2..2 + |frame.payload|] == frame.payload && s[2 + |frame.payload|..] == rest;
    assert ReadFrame(s) == Got(frame, rest);
  }

  lemma {:induction false} ContinuedFrames(text: string, rest: string)
    ensures Reads(Continued(text) + rest, Split(text), rest)
  {
    if |text| > SmallMsgMaxSize {
      var head, tail := text[..SmallMsgMaxSize], text[SmallMsgMaxSize..];
      ContinuedFrames(tail, rest);
      Assoc([Byte(0x00), Byte(125)] + head, Continued(tail), rest);
      OneFrame(Continued(text) + rest, 0x00, Frame(false, 0, head), Continued(tail) + rest);
      ReadsOn(Continued(text) + rest, Frame(false, 0, head), Continued(tail) + rest, Split(tail), rest);
    } else {
      OneFrame(Continued(text) + rest, 0x80, Frame(true, 0, text), rest);
    }
  }

  lemma ReadsOn(s: string, frame: Frame, middle: string, frames: seq<Frame>, rest: string)
    requires Reads(s, [frame], middle) && Reads(middle, frames, rest)
    ensures Reads(s, [frame] + frames, rest)
  {
    if Frames(rest).Some? {
      assert [frame] + (frames + Frames(rest).value) == [frame] + frames + Frames(rest).value;
    }
  }

  lemma LongMessageFrames(s: string, head: string, tail: string, rest: string)
    requires |head| == SmallMsgMaxSize && s == [Byte(0x01), Byte(125)] + head + (Continued(tail) + rest)
    ensures Reads(s, [Frame(false, 1, head)] + Split(tail), rest)
  {
    var more := Continued(tail) + rest;
    ContinuedFrames(tail, rest);
    OneFrame(s, 0x01, Frame(false, 1, head), more);
    ReadsOn(s, Frame(false, 1, head), more, Split(tail), rest);
  }

  lemma MessageFrames(msg: string, rest: string)
    ensures Reads(Framed(msg) + rest, FramesOf(msg), rest)
  {
    if |msg| <= SmallMsgMaxSize {
      OneFrame(Framed(msg) + rest, 0x81, Frame(true, 1, msg), rest);
    } else {
      var head, tail := msg[..SmallMsgMaxSize], msg[SmallMsgMaxSize..];
      Assoc([Byte(0x01), Byte(125)] + head, Continued(tail), rest);
      LongMessageFrames(Framed(msg) + rest, head, tail, rest);
    }
  }

  lemma {:induction false} SplitMessage(text: string, begun: string, more: seq<Frame>)
    ensures Messages(Split(text) + more, Some(begun)) ==
            var m := Messages(more, None); if m.None? then None else Some([begun + text] + m.value)
    decreases |text|
  {
    if |text| > SmallMsgMaxSize {
      var head, tail := text[..SmallMsgMaxSize], text[SmallMsgMaxSize..];
      SplitMessage(tail, begun + head, more);
      NextFrame(head, begun, Split(tail) + more);
      Assoc([Frame(false, 0, head)], Split(tail), more);
      Assoc(begun, head, tail);
      assert head + tail == text;
    } else {
      FinalFrame(text, begun, more);
    }
  }

  lemma NextFrame(head: string, begun: string, frames: seq<Frame>)
    ensures Messages([Frame(false, 0, head)] + frames, Some(begun)) == Messages(frames, Some(begun + head))
  {
    Tail(Frame(false, 0, head), frames);
  }

  lemma FinalFrame(text: string, begun: string, frames: seq<Frame>)
    ensures Messages([Frame(true, 0, text)] + frames, Some(begun)) ==
            var m := Messages(frames, None); if m.None? then None else Some([begun + text] + m.value)
  {
    Tail(Frame(true, 0, text), frames);
  }

  lemma LongMessage(head: string, tail: string, more: seq<Frame>)
    ensures Messages([Frame(false, 1, head)] + Split(tail) + more, None) ==
            var m := Messages(more, None); if m.None? then None else Some([head + tail] + m.value)
  {
    SplitMessage(tail, head, more);
    FirstFrame(head, Split(tail) + more);
    assert [Frame(false, 1, head)] + Split(tail) + more == [Frame(false, 1, head)] + (Split(tail) + more);
  }

  lemma FirstFrame(head: string, frames: seq<Frame>)
    ensures Messages([Frame(false, 1, head)] + frames, None) == Messages(frames, Some(head))
  {
    assert ([Frame(false, 1, head)] + frames)[1..] == frames;
    assert [] + head == head;
  }

  lemma WholeMessage(msg: string, more: seq<Frame>)
    ensures Messages(FramesOf(msg) + more, None) ==
            var m := Messages(more, None); if m.None? then None else Some([msg] + m.value)
  {
    if |msg| <= SmallMsgMaxSize {
      assert (FramesOf(msg) + more)[1..] == more;
      assert [] + msg == msg;
    } else {
      var head, tail := msg[..SmallMsgMaxSize], msg[SmallMsgMaxSize..];
      assert head + tail == msg;
      LongMessage(head, tail, more);
    }
  }

  function Stream(msgs: seq<string>): string {
    if msgs == [] then [] else Framed(msgs[0]) + Stream(msgs[1..])
  }

  /** The frames written for a sequence of messages decode to exactly that sequence. */
  lemma {:induction false} StreamDecodes(msgs: seq<string>)
    ensures Decoded(Stream(msgs)) == Some(msgs)
  {
    if msgs != [] {
      StreamDecodes(msgs[1..]);
      MessageFrames(msgs[0], Stream(msgs[1..]));
      WholeMessage(msgs[0], Frames(Stream(msgs[1..])).value);
      assert [msgs[0]] + msgs[1..] == msgs;
    }
  }

  /** How the frames of one non-empty message look. */
  ghost predicate WellSplit(frames: seq<Frame>, first: int) {
    forall k :: 0 <= k < |frames| ==> WellPlaced(frames, k, first)
  }

  predicate WellPlaced(frames: seq<Frame>, k: nat, first: int)
    requires k < |frames|
  {
    && 1 <= |frames[k].payload| <= SmallMsgMaxSize
    && (frames[k].fin <==> k == |frames| - 1)
    && frames[k].opcode == (if k == 0 then first else 0)
  }

  function Needed(n: nat): nat {
    (n + SmallMsgMaxSize - 1) / SmallMsgMaxSize
  }

  lemma {:induction false} SplitWell(text: string)
    requires text != []
    ensures WellSplit(Split(text), 0) && |Split(text)| == Needed(|text|)
    ensures |Continued(text)| == |text| + 2 * Needed(|text|)
  {
    if |text| > SmallMsgMaxSize {
      var tail := text[SmallMsgMaxSize..];
      SplitWell(tail);
      assert Needed(|text|) == 1 + Needed(|tail|);
      forall k | 0 <= k < |Split(text)| ensures WellPlaced(Split(text), k, 0) {
        if k > 0 {
          assert WellPlaced(Split(tail), k - 1, 0);
        }
      }
    } else {
      assert WellPlaced(Split(text), 0, 0);
    }
  }

  /** A message of n bytes takes as few frames as frames of 125 bytes can, all with a payload
      of 1 to 125 bytes, the last one final and only that, and two bytes more for each. */
  lemma FramedWell(msg: string)
    requires msg != []
    ensures Frames(Framed(msg)) == Some(FramesOf(msg))
    ensures WellSplit(FramesOf(msg), 1) && |FramesOf(msg)| == Needed(|msg|)
    ensures |Framed(msg)| == |msg| + 2 * Needed(|msg|)
  {
    MessageFrames(msg, []);
    assert Framed(msg) + [] == Framed(msg) && FramesOf(msg) + [] == FramesOf(msg);
    if |msg| > SmallMsgMaxSize {
      var tail := msg[SmallMsgMaxSize..];
      SplitWell(tail);
      assert Needed(|msg|) == 1 + Needed(|tail|);
      forall k | 0 <= k < |FramesOf(msg)| ensures WellPlaced(FramesOf(msg), k, 1) {
        if k > 0 {
          assert WellPlaced(Split(tail), k - 1, 0);
        }
      }
    }
  }
}
