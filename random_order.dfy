/**
  The unordered strategy: moves are searched in the rules engine's enumeration
  order, and the sorted sibling lists it is told about are ignored. It keeps no state.
*/
module RandomOrder {
  import opened Chess

  /** Every legal move exactly once, in enumeration order. */
  function OrderMoves(legal: seq<Move>): (r: seq<Move>)
    ensures |r| == |legal|
    ensures forall i :: 0 <= i < |r| ==> r[i] == legal[i]
  {
    seq(|legal|, i requires 0 <= i < |legal| => legal[i])
  }

  /** Has no effect. */
  method UpdatePriors(sortedMoves: seq<Move>)
  {
  }
}
