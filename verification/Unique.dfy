/** Sequences without repetition, and `dict.fromkeys`: the distinct elements of a sequence, by first occurrence. */
module Unique {

  ghost predicate NoRepeats<T>(s: seq<T>) {
    forall i, j :: 0 <= i < j < |s| ==> s[i] != s[j]
  }

  /** `tuple(dict.fromkeys(s))`: first occurrences, in order. */
  function Dedup(s: seq<string>): seq<string> {
    if s == [] then []
    else
      var head := Dedup(s[..|s| - 1]);
      if s[|s| - 1] in head then head else head + [s[|s| - 1]]
  }

  /** The elements of `some` first occur in `all` in the same order. */
  ghost predicate KeepsOrder(some: seq<string>, all: seq<string>) {
    forall i, j, k, m | 0 <= i < j < |some| && FirstAt(all, some[i], k) && FirstAt(all, some[j], m) :: k < m
  }

  ghost predicate FirstAt(s: seq<string>, x: string, k: int) {
    0 <= k < |s| && s[k] == x && x !in s[..k]
  }

  lemma {:induction false} FirstAtPrefix(s: seq<string>, x: string, k: int)
    requires s != [] && FirstAt(s, x, k)
    ensures k < |s| - 1 ==> FirstAt(s[..|s| - 1], x, k)
    ensures k == |s| - 1 ==> x !in s[..|s| - 1]
  {
    if k < |s| - 1 {
      assert s[..|s| - 1][..k] == s[..k];
    }
  }

  lemma {:induction false} DedupKeepsOrder(s: seq<string>)
    ensures KeepsOrder(Dedup(s), s)
  {
    if s != [] {
      var n := |s| - 1;
      DedupKeepsOrder(s[..n]);
      DedupMeaning(s[..n]);
      var r := Dedup(s);
      forall i, j, k, m | 0 <= i < j < |r| && FirstAt(s, r[i], k) && FirstAt(s, r[j], m)
        ensures k < m
      {
        FirstAtPrefix(s, r[i], k);
        FirstAtPrefix(s, r[j], m);
        assert r[i] in Dedup(s[..n]);
      }
    }
  }

  lemma {:induction false} DedupMeaning(s: seq<string>)
    ensures forall x :: x in Dedup(s) <==> x in s
    ensures NoRepeats(Dedup(s))
  {
    if s != [] {
      DedupMeaning(s[..|s| - 1]);
      assert s == s[..|s| - 1] + [s[|s| - 1]];
    }
  }
}
