/** Where a sequence that was put together piece by piece is cut. */
module Pieces {
  /** Places from the first to the last, one for the start and one after each piece. */
  predicate Cuts(cuts: seq<nat>, n: nat, first: nat, last: nat) {
    && |cuts| == n + 1 && cuts[0] == first && cuts[n] == last
    && (forall k :: 0 <= k < n ==> cuts[k] <= cuts[k + 1])
    && (forall k :: 0 <= k <= n ==> first <= cuts[k] <= last)
  }
}
