/** Where a sequence of truth values changes. */
module Sequences {

  /** A sequence that is true at n and false at its end turns somewhere from n on. */
  lemma {:induction false} Turn(bs: seq<bool>, n: nat) returns (j: nat)
    requires n < |bs| && bs[n] && !bs[|bs| - 1]
    ensures n <= j < |bs| - 1 && bs[j] && !bs[j + 1]
    decreases |bs| - n
  {
    if bs[n + 1] {
      j := Turn(bs, n + 1);
    } else {
      j := n;
    }
  }
}
