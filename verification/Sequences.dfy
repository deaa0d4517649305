/** Facts about sequences that the solver is slow to see in a larger context. */
module Sequences {
  lemma Assoc<T>(a: seq<T>, b: seq<T>, c: seq<T>)
    ensures (a + b) + c == a + (b + c)
  {
  }

  lemma Tail<T>(first: T, rest: seq<T>)
    ensures ([first] + rest)[0] == first && ([first] + rest)[1..] == rest
  {
  }

  lemma Suffix<T>(s: seq<T>, k: nat)
    requires k < |s|
    ensures s[k..][0] == s[k] && s[k..][1..] == s[k + 1..]
  {
  }

  lemma FrontFirst<T>(a: seq<T>, b: seq<T>)
    ensures if a == [] then a + b == b else a + b == [a[0]] + (a[1..] + b)
  {
  }
}
