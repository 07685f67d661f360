/** What several modules say about sequences and sets. */
module Sequences {

  ghost predicate Distinct<T>(s: seq<T>) {
    forall i, j :: 0 <= i < j < |s| ==> s[i] != s[j]
  }

  /** `part` can be had by striking elements out of `whole`. */
  predicate StruckOut<T(==)>(part: seq<T>, whole: seq<T>) {
    || part == []
    || (whole != [] && part[0] == whole[0] && StruckOut(part[1..], whole[1..]))
    || (whole != [] && StruckOut(part, whole[1..]))
  }

  /** A number above all of these. */
  lemma {:induction false} AboveAll(ids: set<nat>) returns (n: nat)
    ensures forall id | id in ids :: id < n
    decreases ids
  {
    if ids == {} {
      n := 0;
    } else {
      var x :| x in ids;
      var m := AboveAll(ids - {x});
      n := if m <= x then x + 1 else m;
      assert forall id | id in ids :: id == x || id in ids - {x};
    }
  }
}
