/**
  Prior-weighted move ordering. Every move seen in a sorted sibling list is
  credited with a reward that falls linearly with its place in that list; moves
  are then ordered by their average reward, largest first.
*/
module LinearReward {
  import opened Chess
  import opened Sorting

  /** A move's accumulated reward and number of observations. The count starts at 1
      and only grows, so the average below never divides by zero. */
  type PriorScore = p: (int, int) | p.1 >= 1 witness (0, 1)

  /** Reward for the move at `place` (0 is the best) in a sorted sibling list. */
  function ScoreAdd(place: int): int
  {
    3000 - place * 150
  }

  lemma ScoreAddDecreasing(i: int, j: int)
    requires i < j
    ensures ScoreAdd(i) > ScoreAdd(j)
  {
  }

  /** The prior of a move never seen: one observation at the reward of place 5. */
  function DefaultScore(): (p: PriorScore)
    ensures p == (ScoreAdd(5), 1) && p.0 / p.1 == 2250
  {
    (ScoreAdd(5), 1)
  }

  function PriorOf(priors: map<Move, PriorScore>, m: Move): PriorScore
  {
    if m in priors then priors[m] else DefaultScore()
  }

  /** The ordering key `sum // count` (floor division; the count is positive). */
  function Average(p: PriorScore): int
  {
    p.0 / p.1
  }

  function AverageKey(priors: map<Move, PriorScore>): Move -> real
  {
    m => Average(PriorOf(priors, m)) as real
  }

  /** The priors after crediting `sorted` one move at a time, place 0 first. */
  function Updated(priors: map<Move, PriorScore>, sorted: seq<Move>): map<Move, PriorScore>
    decreases |sorted|
  {
    if sorted == [] then priors
    else
      var before := Updated(priors, sorted[..|sorted| - 1]);
      var m := sorted[|sorted| - 1];
      var p := PriorOf(before, m);
      before[m := (p.0 + ScoreAdd(|sorted| - 1), p.1 + 1)]
  }

  /** Updating never lowers a stored observation count, and every credited move ends
      with at least two observations (the default one and its own). */
  lemma {:induction false} UpdatedCounts(priors: map<Move, PriorScore>, sorted: seq<Move>)
    ensures var r := Updated(priors, sorted);
            && (forall m :: m in priors ==> m in r && r[m].1 >= priors[m].1)
            && (forall m :: m in sorted ==> m in r && r[m].1 >= 2)
    decreases |sorted|
  {
    if sorted != [] {
      var init := sorted[..|sorted| - 1];
      UpdatedCounts(priors, init);
      assert forall m :: m in sorted ==> m in init || m == sorted[|sorted| - 1];
    }
  }

  /** Crediting one more move of the list extends the previous update by that move. */
  lemma UpdatedSnoc(priors: map<Move, PriorScore>, sorted: seq<Move>, place: int)
    requires 0 <= place < |sorted|
    ensures var before := Updated(priors, sorted[..place]);
            var p := PriorOf(before, sorted[place]);
            Updated(priors, sorted[..place + 1]) == before[sorted[place] := (p.0 + ScoreAdd(place), p.1 + 1)]
  {
    assert sorted[..place + 1][..place] == sorted[..place];
  }

  /** Updating adds the credited moves to the keys and never removes one. */
  lemma {:induction false} UpdatedKeys(priors: map<Move, PriorScore>, sorted: seq<Move>)
    ensures Updated(priors, sorted).Keys == priors.Keys + set m | m in sorted
    decreases |sorted|
  {
    if sorted != [] {
      var init := sorted[..|sorted| - 1];
      UpdatedKeys(priors, init);
      assert sorted == init + [sorted[|sorted| - 1]];
      assert (set m | m in sorted) == (set m | m in init) + {sorted[|sorted| - 1]};
    }
  }

  /** A move not in the list keeps its prior. */
  lemma {:induction false} UpdatedElsewhere(priors: map<Move, PriorScore>, sorted: seq<Move>, m: Move)
    requires m !in sorted
    ensures m in Updated(priors, sorted) <==> m in priors
    ensures PriorOf(Updated(priors, sorted), m) == PriorOf(priors, m)
    decreases |sorted|
  {
    if sorted != [] {
      UpdatedElsewhere(priors, sorted[..|sorted| - 1], m);
    }
  }

  /** With no repeated move, the move at `place` gains ScoreAdd(place) and one observation. */
  lemma {:induction false} UpdatedAt(priors: map<Move, PriorScore>, sorted: seq<Move>, place: int)
    requires forall i, j :: 0 <= i < j < |sorted| ==> sorted[i] != sorted[j]
    requires 0 <= place < |sorted|
    ensures var before := PriorOf(priors, sorted[place]);
            PriorOf(Updated(priors, sorted), sorted[place]) == (before.0 + ScoreAdd(place), before.1 + 1)
    decreases |sorted|
  {
    var init := sorted[..|sorted| - 1];
    if place == |sorted| - 1 {
      UpdatedElsewhere(priors, init, sorted[place]);
    } else {
      UpdatedAt(priors, init, place);
    }
  }

  /** The stable sort of `legal` by average prior, largest first. */
  function Ordered(priors: map<Move, PriorScore>, legal: seq<Move>): (r: seq<Move>)
    ensures |r| == |legal| && multiset(r) == multiset(legal)
    ensures forall i, j :: 0 <= i < j < |r| ==> Average(PriorOf(priors, r[i])) >= Average(PriorOf(priors, r[j]))
  {
    var r := SortDesc(legal, AverageKey(priors));
    assert forall i, j :: 0 <= i < j < |r| ==> AverageKey(priors)(r[i]) >= AverageKey(priors)(r[j]);
    r
  }

  /** Before any update every move has the default prior, so the ordering is the legal-move order. */
  lemma FreshOrderIsLegalOrder(legal: seq<Move>)
    ensures Ordered(map[], legal) == legal
  {
    var key := AverageKey(map[]);
    assert forall m :: key(m) == 2250 as real;
    AllKeyFilter(legal, key, 2250 as real);
    AllKeyFilter(SortDesc(legal, key), key, 2250 as real);
    SortDescStable(legal, key, 2250 as real);
  }

  lemma {:induction false} AllKeyFilter(s: seq<Move>, key: Move -> real, k: real)
    requires forall m :: key(m) == k
    ensures Filter(s, key, k) == s
  {
    if s != [] {
      AllKeyFilter(s[1..], key, k);
      assert s == [s[0]] + s[1..];
    }
  }

  /** The averages after crediting three distinct, previously unseen moves:
      2625 > 2550 > 2475, while every other unseen move stays at 2250. */
  lemma ThreeUpdatesAverages(priors: map<Move, PriorScore>, m1: Move, m2: Move, m3: Move, u: Move)
    requires m1 != m2 && m1 != m3 && m2 != m3
    requires m1 !in priors && m2 !in priors && m3 !in priors && u !in priors
    requires u != m1 && u != m2 && u != m3
    ensures var after := Updated(priors, [m1, m2, m3]);
            && Average(PriorOf(after, m1)) == 2625
            && Average(PriorOf(after, m2)) == 2550
            && Average(PriorOf(after, m3)) == 2475
            && Average(PriorOf(after, u)) == 2250
  {
    UpdatedAt(priors, [m1, m2, m3], 0);
    UpdatedAt(priors, [m1, m2, m3], 1);
    UpdatedAt(priors, [m1, m2, m3], 2);
    UpdatedElsewhere(priors, [m1, m2, m3], u);
  }

  /** So a subsequent ordering ranks the three moves first, second and third, ahead of
      every other unseen move. */
  lemma ThreeUpdatesThenOrder(priors: map<Move, PriorScore>, m1: Move, m2: Move, m3: Move, u: Move,
                              legal: seq<Move>, i1: int, i2: int, i3: int, iu: int)
    requires m1 != m2 && m1 != m3 && m2 != m3
    requires m1 !in priors && m2 !in priors && m3 !in priors && u !in priors
    requires u != m1 && u != m2 && u != m3
    requires var r := Ordered(Updated(priors, [m1, m2, m3]), legal);
             0 <= i1 < |r| && 0 <= i2 < |r| && 0 <= i3 < |r| && 0 <= iu < |r| &&
             r[i1] == m1 && r[i2] == m2 && r[i3] == m3 && r[iu] == u
    ensures i1 < i2 < i3 < iu
  {
    var after := Updated(priors, [m1, m2, m3]);
    var key := AverageKey(after);
    ThreeUpdatesAverages(priors, m1, m2, m3, u);
    var r := SortDesc(legal, key);
    assert r == Ordered(after, legal);
    assert key(m1) > key(m2) > key(m3) > key(u);
    LargerKeyComesFirst(r, key, i1, i2);
    LargerKeyComesFirst(r, key, i2, i3);
    LargerKeyComesFirst(r, key, i3, iu);
  }

  class LinearReward {
    var movePriors: map<Move, PriorScore>

    constructor ()
      ensures movePriors == map[]
    {
      movePriors := map[];
    }

    /** The stored prior of `m`, or the default for a move never credited. */
    function Prior(m: Move): (p: PriorScore)
      reads this
      ensures m in movePriors ==> p == movePriors[m]
      ensures m !in movePriors ==> p == (2250, 1)
    {
      PriorOf(movePriors, m)
    }

    /** Credits each move of a sorted sibling list with the reward of its place. */
    method UpdatePriors(sortedMoves: seq<Move>)
      modifies this
      ensures movePriors == Updated(old(movePriors), sortedMoves)
    {
      for place := 0 to |sortedMoves|
        invariant movePriors == Updated(old(movePriors), sortedMoves[..place])
      {
        var move := sortedMoves[place];
        var oldPrior := Prior(move);
        var addScore := ScoreAdd(place);
        UpdatedSnoc(old(movePriors), sortedMoves, place);
        movePriors := movePriors[move := (oldPrior.0 + addScore, oldPrior.1 + 1)];
      }
      assert sortedMoves[..|sortedMoves|] == sortedMoves;
    }

    /** The legal moves, most rewarded first, ties in legal-move order; the priors are only read. */
    function OrderMoves(legal: seq<Move>): (r: seq<Move>)
      reads this
      ensures |r| == |legal| && multiset(r) == multiset(legal)
      ensures forall i, j :: 0 <= i < j < |r| ==> Average(Prior(r[i])) >= Average(Prior(r[j]))
      ensures forall k: real :: Filter(r, AverageKey(movePriors), k) == Filter(legal, AverageKey(movePriors), k)
    {
      var r := Ordered(movePriors, legal);
      assert forall k: real :: Filter(r, AverageKey(movePriors), k) == Filter(legal, AverageKey(movePriors), k) by {
        forall k: real ensures Filter(r, AverageKey(movePriors), k) == Filter(legal, AverageKey(movePriors), k) {
          SortDescStable(legal, AverageKey(movePriors), k);
        }
      }
      r
    }
  }
}
