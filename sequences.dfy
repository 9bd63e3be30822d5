/** Generic facts about sequences used by the filters of the model. */
module Sequences {

  /** `a` is an order-preserving subsequence of `b`: `a` is `b` with some elements removed. */
  ghost predicate Subseq<T>(a: seq<T>, b: seq<T>)
    decreases |b|
  {
    if a == [] then true
    else if b == [] then false
    else (a[0] == b[0] && Subseq(a[1..], b[1..])) || Subseq(a, b[1..])
  }

  /** No element occurs twice. */
  ghost predicate Distinct<T>(s: seq<T>)
  {
    forall i, j :: 0 <= i < j < |s| ==> s[i] != s[j]
  }

  /** The elements of a sequence, as a set. */
  function Elements<T>(s: seq<T>): set<T>
  {
    set x | x in s
  }

  /** Collapsing a sequence to its set of elements never makes it larger. */
  lemma {:induction false} ElementsBound<T>(s: seq<T>)
    ensures |Elements(s)| <= |s|
  {
    if s != [] {
      ElementsBound(s[1..]);
      assert Elements(s) == {s[0]} + Elements(s[1..]);
    }
  }

  /** Some listing of a finite set, in an order left unspecified: each element exactly once. */
  ghost function SetToSeq<T>(s: set<T>): (r: seq<T>)
    ensures Distinct(r)
    ensures Elements(r) == s
    ensures |r| == |s|
    decreases |s|
  {
    if s == {} then []
    else
      var x :| x in s;
      var rest := SetToSeq(s - {x});
      assert x !in rest;
      assert Elements([x] + rest) == {x} + Elements(rest);
      [x] + rest
  }
}
