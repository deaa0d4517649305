/** The parser reads a folded line without its breaks, the completeness check with them.
    What both make of a line's parts. */
module Unfolding {
  import opened Text
  import opened LineReader
  import opened Request
  import opened Sequences

  predicate NoLineEnd(t: string) {
    forall k :: 0 <= k < |t| ==> !LineEnd(t[k])
  }

  predicate NoSpace(t: string) {
    forall k :: 0 <= k < |t| ==> !Space(t[k])
  }

  predicate AllSpace(t: string) {
    forall k :: 0 <= k < |t| ==> Space(t[k])
  }

  lemma {:induction false} UnbrokenAppend(a: string, b: string)
    ensures Unbroken(a + b) == Unbroken(a) + Unbroken(b)
  {
    FrontFirst(a, b);
    if a != [] {
      UnbrokenAppend(a[1..], b);
      UnbrokenFront(a[0], a[1..] + b);
      Assoc(if LineEnd(a[0]) then [] else [a[0]], Unbroken(a[1..]), Unbroken(b));
    }
  }

  lemma UnbrokenFront(c: char, rest: string)
    ensures Unbroken([c] + rest) == (if LineEnd(c) then [] else [c]) + Unbroken(rest)
  {
    Tail(c, rest);
  }

  lemma {:induction false} UnbrokenMembers(t: string)
    ensures forall c :: c in Unbroken(t) <==> c in t && !LineEnd(c)
  {
    if t != [] {
      UnbrokenMembers(t[1..]);
      assert t == [t[0]] + t[1..];
    }
  }

  lemma {:induction false} UnbrokenClean(t: string)
    requires NoLineEnd(t)
    ensures Unbroken(t) == t
  {
    if t != [] {
      UnbrokenClean(t[1..]);
    }
  }

  /** Skipping breaks only in lines that have them is skipping them in all lines. */
  lemma UnfoldedIsUnbroken(s: string, line: Line)
    requires line.In(s) && IsLine(s, line.begin, line)
    ensures Unfolded(s, line) == Unbroken(line.Text(s))
  {
    if !line.multiline {
      UnbrokenClean(line.Text(s));
    }
  }

  lemma NoneInUnbroken(t: string, p: char -> bool)
    requires forall k :: 0 <= k < |t| ==> !p(t[k])
    ensures forall k :: 0 <= k < |Unbroken(t)| ==> !p(Unbroken(t)[k])
  {
    UnbrokenMembers(t);
    forall k | 0 <= k < |Unbroken(t)| ensures !p(Unbroken(t)[k]) {
      assert Unbroken(t)[k] in t;
    }
  }

  lemma UnbrokenParts(first: string, c: char, second: string)
    requires !LineEnd(c)
    ensures Unbroken(first + [c] + second) == Unbroken(first) + [c] + Unbroken(second)
  {
    UnbrokenAppend(first + [c], second);
    UnbrokenAppend(first, [c]);
    UnbrokenClean([c]);
  }

  /** A text splits the same way with its breaks skipped. */
  lemma SplitUnbroken(t: string, p: char -> bool)
    requires !p('\r') && !p('\n')
    ensures var a := SplitIf(t, p);
      SplitIf(Unbroken(t), p) == Split(Unbroken(a.first), Unbroken(a.second), a.found)
  {
    var i := Find(t, 0, p);
    if i < |t| {
      NoneInUnbroken(t[..i], p);
      UnbrokenParts(t[..i], t[i], t[i + 1..]);
      assert t == t[..i] + [t[i]] + t[i + 1..];
      SplitAt(Unbroken(t[..i]), t[i], Unbroken(t[i + 1..]), p);
    } else {
      NoneInUnbroken(t, p);
      SplitNone(Unbroken(t), p);
    }
  }

  lemma CiEqualNoSpace(t: string, key: string)
    requires CiEqual(t, key) && NoSpace(Lowered(key))
    ensures NoSpace(t)
  {
    forall k | 0 <= k < |t| ensures !Space(t[k]) {
      assert Lowered(t)[k] == Lowered(key)[k];
    }
  }

  /** In a text that is folded, does not end in a break, and has one, a blank remains. */
  lemma {:induction false} BlankRemains(t: string, k: nat)
    requires Folded(t) && k < |t| && LineEnd(t[k]) && !LineEnd(t[|t| - 1])
    ensures exists c :: c in Unbroken(t) && Space(c)
    decreases |t| - k
  {
    if LineEnd(t[k + 1]) {
      BlankRemains(t, k + 1);
    } else {
      UnbrokenMembers(t);
      assert Blank(t[k + 1]) && t[k + 1] in t;
      assert t[k + 1] in Unbroken(t);
    }
  }

  lemma TrimUnbroken(core: string, spaces: string)
    requires AllSpace(spaces) && (core != [] ==> !Space(core[|core| - 1]))
    ensures TrimRight(Unbroken(core + spaces)) == Unbroken(core)
  {
    UnbrokenAppend(core, spaces);
    NoneInUnbroken(spaces, c => !Space(c));
    if core != [] {
      LastUnbroken(core);
    }
    TrimRightCore(Unbroken(core), Unbroken(spaces));
  }

  /** Whether a header has a given name does not depend on where the line is folded. */
  lemma NameUnbroken(h: string, key: string)
    requires Folded(h) && NoSpace(Lowered(key))
    ensures CiEqual(TrimRight(Unbroken(h)), key) <==> CiEqual(TrimRight(h), key)
  {
    var core := TrimRight(h);
    FoldedCore(h, core);
    NameParts(core, h[|core|..], key);
  }

  lemma FoldedCore(h: string, core: string)
    requires Folded(h) && core <= h
    ensures Folded(core) && h == core + h[|core|..]
  {
    assert forall j :: 0 <= j < |core| ==> core[j] == h[j];
  }

  lemma NameParts(core: string, spaces: string, key: string)
    requires Folded(core) && NoSpace(Lowered(key))
    requires AllSpace(spaces) && (core != [] ==> !Space(core[|core| - 1]))
    ensures CiEqual(TrimRight(Unbroken(core + spaces)), key) <==> CiEqual(core, key)
  {
    TrimUnbroken(core, spaces);
    if NoLineEnd(core) {
      UnbrokenClean(core);
    } else {
      var k :| 0 <= k < |core| && LineEnd(core[k]);
      NotFolded(core, k, key);
    }
  }

  lemma NotFolded(t: string, k: nat, key: string)
    requires Folded(t) && k < |t| && LineEnd(t[k]) && !LineEnd(t[|t| - 1]) && NoSpace(Lowered(key))
    ensures !CiEqual(t, key) && !CiEqual(Unbroken(t), key)
  {
    BlankRemains(t, k);
    if CiEqual(Unbroken(t), key) {
      CiEqualNoSpace(Unbroken(t), key);
      assert false;
    }
    if CiEqual(t, key) {
      CiEqualNoSpace(t, key);
      assert false;
    }
  }

  lemma LastUnbroken(t: string)
    requires t != [] && !LineEnd(t[|t| - 1])
    ensures var u := Unbroken(t); u != [] && u[|u| - 1] == t[|t| - 1]
  {
    var n := |t| - 1;
    assert t == t[..n] + [t[n]];
    UnbrokenAppend(t[..n], [t[n]]);
    assert [t[n]][1..] == [];
    assert Unbroken([t[n]]) == [t[n]];
  }

  predicate AllLineEnd(t: string) {
    forall k :: 0 <= k < |t| ==> LineEnd(t[k])
  }

  predicate NoBlank(t: string) {
    forall k :: 0 <= k < |t| ==> !Blank(t[k])
  }

  /** A break in a folded text without blanks goes on to the end. */
  lemma {:induction false} BreaksOnly(t: string)
    requires Folded(t) && NoBlank(t) && t != [] && LineEnd(t[0])
    ensures AllLineEnd(t) && Unbroken(t) == []
  {
    if |t| > 1 {
      var rest := t[1..];
      assert forall k :: 0 <= k < |rest| ==> rest[k] == t[k + 1];
      assert LineEnd(t[1]);
      BreaksOnly(rest);
    }
  }

  /** A piece without blanks of a folded text has breaks at its end only. */
  lemma {:induction false} PieceUnbroken(t: string) returns (run: string)
    requires Folded(t) && NoBlank(t)
    ensures t == Unbroken(t) + run && AllLineEnd(run)
  {
    run := t;
    if t != [] {
      var rest := t[1..];
      if LineEnd(t[0]) {
        BreaksOnly(t);
      } else {
        assert forall k :: 0 <= k < |rest| ==> rest[k] == t[k + 1];
        run := PieceUnbroken(rest);
      }
    }
  }
}
