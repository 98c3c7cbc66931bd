/** Sums over sequences, folded left to right like Python's built-in `sum`. */
module Sums {

  function Sum(s: seq<real>): real
  {
    if |s| == 0 then 0.0 else Sum(s[..|s| - 1]) + s[|s| - 1]
  }

  function SumInt(s: seq<int>): int
  {
    if |s| == 0 then 0 else SumInt(s[..|s| - 1]) + s[|s| - 1]
  }

  /** Extending a prefix by one element adds that element. */
  lemma {:induction false} SumIntPrefixStep(s: seq<int>, k: nat)
    requires k < |s|
    ensures SumInt(s[..k + 1]) == SumInt(s[..k]) + s[k]
  {
    assert s[..k + 1][..k] == s[..k];
  }
}
