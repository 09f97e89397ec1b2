/**
  The move-ordering interface the search is written against: `OrderMoves` ranks
  the legal moves of a position and `UpdatePriors` is told the sorted moves of every
  fully explored sibling group. The two strategies are selected by `linear`.
*/
module SearchOrder {
  import opened Chess
  import LinearReward
  import RandomOrder

  /** The priors after crediting every list of the log in turn, starting from none. */
  function Replay(updates: seq<seq<Move>>): map<Move, LinearReward.PriorScore>
  {
    if updates == [] then map[]
    else LinearReward.Updated(Replay(updates[..|updates| - 1]), updates[|updates| - 1])
  }

  /** The order a strategy that has been told `updates` gives the legal moves. */
  function OrderWith(linear: bool, updates: seq<seq<Move>>, legal: seq<Move>): seq<Move>
  {
    if linear then LinearReward.Ordered(Replay(updates), legal) else legal
  }

  /** Before any update both strategies give the legal moves in enumeration order. */
  lemma FreshOrder(linear: bool, legal: seq<Move>)
    ensures OrderWith(linear, [], legal) == legal
  {
    if linear {
      LinearReward.FreshOrderIsLegalOrder(legal);
    }
  }

  /** Replaying a longer log is replaying the shorter one and crediting one more list. */
  lemma ReplaySnoc(updates: seq<seq<Move>>, sorted: seq<Move>)
    ensures Replay(updates + [sorted]) == LinearReward.Updated(Replay(updates), sorted)
  {
    assert (updates + [sorted])[..|updates|] == updates;
  }

  class SearchOrder {
    const linear: bool
    const reward: LinearReward.LinearReward
    /** Every list handed to UpdatePriors so far, oldest first. */
    ghost var updates: seq<seq<Move>>

    /** The priors are the replay of the log for the prior-weighted strategy, and stay
        empty for the unordered one. */
    ghost predicate Valid()
      reads this, reward
    {
      reward.movePriors == (if linear then Replay(updates) else map[])
    }

    constructor (linear: bool)
      ensures this.linear == linear && updates == [] && fresh(reward) && Valid()
    {
      this.linear := linear;
      reward := new LinearReward.LinearReward();
      updates := [];
    }

    /** A permutation of the legal moves, determined by the log; the unordered strategy
        returns them as enumerated. */
    function OrderMoves(legal: seq<Move>): (r: seq<Move>)
      reads this, reward
      requires Valid()
      ensures |r| == |legal| && multiset(r) == multiset(legal)
      ensures r == OrderWith(linear, updates, legal)
      ensures !linear ==> r == legal
    {
      if linear then reward.OrderMoves(legal)
      else
        var r := RandomOrder.OrderMoves(legal);
        assert r == legal;
        r
    }

    method UpdatePriors(sortedMoves: seq<Move>)
      requires Valid()
      modifies this, reward
      ensures Valid() && updates == old(updates) + [sortedMoves]
      ensures linear ==> reward.movePriors == LinearReward.Updated(old(reward.movePriors), sortedMoves)
      ensures !linear ==> reward.movePriors == old(reward.movePriors)
    {
      if linear {
        reward.UpdatePriors(sortedMoves);
      } else {
        RandomOrder.UpdatePriors(sortedMoves);
      }
      updates := updates + [sortedMoves];
      ReplaySnoc(old(updates), sortedMoves);
    }
  }
}
