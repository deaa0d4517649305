/** Characters and ranges of text.
    Models include/details/char_traits.hpp and functors.hpp in the "C" locale, and
    include/details/string_utils.hpp. A range is a `string`; a position in it an index. */
module Text {

  predicate Blank(c: char) {
    c == ' ' || c == '\t'
  }

  predicate Space(c: char) {
    c == ' ' || '\t' <= c <= '\r'
  }

  predicate LineEnd(c: char) {
    c == '\n' || c == '\r'
  }

  function Lower(c: char): char {
    if 'A' <= c <= 'Z' then c - 'A' + 'a' else c
  }

  function Lowered(s: string): (r: string)
    ensures |r| == |s|
  {
    seq(|s|, k requires 0 <= k < |s| => Lower(s[k]))
  }

  predicate CiEqual(a: string, b: string) {
    Lowered(a) == Lowered(b)
  }

  /** `std::find_if` from `begin`: the first position that satisfies `p`, or the end. */
  function Find(s: string, begin: nat, p: char -> bool): (r: nat)
    requires begin <= |s|
    ensures begin <= r <= |s|
    ensures forall k :: begin <= k < r ==> !p(s[k])
    ensures r < |s| ==> p(s[r])
    decreases |s| - begin
  {
    if begin == |s| || p(s[begin]) then begin else Find(s, begin + 1, p)
  }

  /** `find_if_not` from `begin`: the first position that does not satisfy `p`, or the end. */
  function FindNot(s: string, begin: nat, p: char -> bool): (r: nat)
    requires begin <= |s|
    ensures begin <= r <= |s|
    ensures forall k :: begin <= k < r ==> p(s[k])
    ensures r < |s| ==> !p(s[r])
    decreases |s| - begin
  {
    if begin == |s| || !p(s[begin]) then begin else FindNot(s, begin + 1, p)
  }

  /** The loop of `find_if_not`. */
  method FindIfNot(s: string, begin: nat, p: char -> bool) returns (i: nat)
    requires begin <= |s|
    ensures i == FindNot(s, begin, p)
  {
    i := begin;
    while i != |s|
      invariant begin <= i <= |s| && FindNot(s, begin, p) == FindNot(s, i, p)
    {
      if !p(s[i]) {
        return;
      }
      i := i + 1;
    }
  }

  function TrimLeft(s: string): (r: string)
    ensures r == [] || !Space(r[0])
  {
    s[FindNot(s, 0, Space)..]
  }

  function TrimRight(s: string): (r: string)
    ensures r <= s
    ensures r == [] || !Space(r[|r| - 1])
    ensures forall k :: |r| <= k < |s| ==> Space(s[k])
  {
    if s != [] && Space(s[|s| - 1]) then TrimRight(s[..|s| - 1]) else s
  }

  function Trim(s: string): string {
    TrimLeft(TrimRight(s))
  }

  /** What a split leaves on both sides of its one-character delimiter, if it found one. */
  datatype Split = Split(first: string, second: string, found: bool)

  function SplitIf(s: string, p: char -> bool): (r: Split)
    ensures s != [] ==> |r.second| < |s|
    ensures s == [] ==> r.second == []
  {
    var i := Find(s, 0, p);
    if i < |s| then Split(s[..i], s[i + 1..], true) else Split(s, [], false)
  }

  /** A split is determined by its parts. */
  lemma SplitAt(first: string, c: char, second: string, p: char -> bool)
    requires p(c) && forall k :: 0 <= k < |first| ==> !p(first[k])
    ensures SplitIf(first + [c] + second, p) == Split(first, second, true)
  {
    var s := first + [c] + second;
    assert s[|first|] == c;
    assert forall k :: 0 <= k < |first| ==> s[k] == first[k];
    assert Find(s, 0, p) == |first|;
  }

  lemma SplitNone(s: string, p: char -> bool)
    requires forall k :: 0 <= k < |s| ==> !p(s[k])
    ensures SplitIf(s, p) == Split(s, [], false)
  {
  }

  /** The non-space core of a text is what its trim finds. */
  lemma TrimCore(left: string, core: string, right: string)
    requires forall k :: 0 <= k < |left| ==> Space(left[k])
    requires forall k :: 0 <= k < |right| ==> Space(right[k])
    requires core != [] && !Space(core[0]) && !Space(core[|core| - 1])
    ensures Trim(left + core + right) == core
    ensures left == [] ==> TrimRight(core + right) == core
  {
    var s := left + core + right;
    TrimRightCore(left + core, right);
    assert TrimRight(s) == left + core;
    assert (left + core)[|left|] == core[0];
    assert FindNot(left + core, 0, Space) == |left|;
    if left == [] {
      assert s == core + right && left + core == core;
    }
  }

  lemma {:induction false} TrimRightCore(core: string, right: string)
    requires forall k :: 0 <= k < |right| ==> Space(right[k])
    requires core == [] || !Space(core[|core| - 1])
    ensures TrimRight(core + right) == core
    decreases |right|
  {
    if right == [] {
      assert core + right == core;
    } else {
      var front := right[..|right| - 1];
      assert (core + right)[..|core + right| - 1] == core + front;
      TrimRightCore(core, front);
    }
  }
}
