/** Small facts about numbers and sequences that several modules use. */
module Seqs {

  function Min(a: nat, b: nat): nat { if a <= b then a else b }

  lemma Associate<T>(a: seq<T>, b: seq<T>, c: seq<T>)
    ensures a + (b + c) == a + b + c
  {
  }
}
