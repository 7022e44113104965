/** The optional value used where the analyzer has "nothing" as an answer. */
module Options {

  datatype Option<+T> = None | Some(value: T)
}

/** Sequence helpers shared by the cut-flow scans and the histogram fills. */
module Seqs {

  /** No element occurs twice. */
  predicate Distinct<T(==)>(s: seq<T>) {
    forall a, b :: 0 <= a < b < |s| ==> s[a] != s[b]
  }

  /** The elements of `s` in the opposite order, as `std::reverse_copy` writes them. */
  function Reverse<T>(s: seq<T>): (r: seq<T>)
    ensures |r| == |s|
    ensures forall i :: 0 <= i < |s| ==> r[i] == s[|s| - 1 - i]
  {
    if |s| == 0 then [] else Reverse(s[1..]) + [s[0]]
  }

  /** Reversing keeps every element with its multiplicity: only the order changes. */
  lemma {:induction false} ReverseKeepsElements<T>(s: seq<T>)
    ensures multiset(Reverse(s)) == multiset(s)
  {
    if |s| > 0 {
      ReverseKeepsElements(s[1..]);
      assert s == [s[0]] + s[1..];
    }
  }
}
