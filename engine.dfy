/**
  The budgeted search. Every node splits its move budget evenly (by integer
  division) among its legal moves; a child whose share is not positive is scored
  statically, otherwise it is searched recursively. Captures may be granted extra
  budget. The side to move tightens its own bound with each improving child and
  the node stops as soon as White's bound reaches Black's. Results at distance
  3..6 from the root are memoised by position key.
*/
module Engine {
  import opened Wrappers
  import opened Chess
  import opened GameTree
  import opened Sorting
  import opened SearchOrder
  import LinearReward

  const WorstWhiteScore: real := -1000000000.0
  const WorstBlackScore: real := 1000000000.0

  /** The classification a node search returns: the examined (move, score) pairs,
      a loss for the named colour, or a draw. */
  datatype MovesAndEvals = OK(pairs: seq<(Move, real)>) | Loss(color: Color) | Draw

  datatype SearchRes = SearchRes(sortedMoves: MovesAndEvals, positionsExplored: int)

  datatype CalcParams = CalcParams(
    moveDepth: int,
    whiteCanGet: real,
    blackCanGet: real,
    distanceFromRoot: int,
    interestingMovesToExtendFor: int)

  // ---------------------------------------------------------------------------
  // Pure building blocks

  /** The scalar of a node result: 0 for a draw, the worst score of the losing
      colour for a loss, and the score of the first (best) pair otherwise. */
  function EvalMovesAndEvals(r: MovesAndEvals): (v: real)
    requires r.OK? ==> r.pairs != []
    ensures r.Draw? ==> v == 0.0
    ensures r == Loss(White) ==> v == WorstWhiteScore
    ensures r == Loss(Black) ==> v == WorstBlackScore
    ensures r.OK? ==> v == r.pairs[0].1
  {
    match r
    case Draw => 0.0
    case Loss(c) => if c == White then WorstWhiteScore else WorstBlackScore
    case OK(pairs) => pairs[0].1
  }

  /** The comparator: -1 when `a` is strictly better than `b` for `color`, 1 otherwise;
      a missing `a` is never better and a missing `b` is beaten by any `a`. */
  function BetterEval(a: Option<real>, b: Option<real>, color: Color): (r: int)
    ensures r == 1 || r == -1
    ensures a.None? ==> r == 1
    ensures a.Some? && b.None? ==> r == -1
    ensures a.Some? && b.Some? ==>
              (r == -1 <==> (if color == White then a.value > b.value else a.value < b.value))
  {
    if a.None? then 1
    else if b.None? then -1
    else
      var multiplier := if color == White then 1.0 else -1.0;
      if a.value * multiplier > b.value * multiplier then -1 else 1
  }

  /** The child budget after the capture extension, and the remaining extension count. */
  function ExtendForInterestingMoves(capture: bool, nextDepth: int, budget: int): (r: (int, int))
    ensures !capture || nextDepth >= 8 ==> r == (nextDepth, budget)
    ensures capture && nextDepth < 8 && budget > 0 ==> r == (8, budget - 1)
    ensures capture && nextDepth < 8 && budget <= 0 ==> r == (1, budget)
    ensures budget - 1 <= r.1 <= budget
    ensures budget >= 0 ==> r.1 >= 0
    ensures r.1 < budget ==> r.0 == 8
  {
    var next := budget;
    if capture && nextDepth < 8 then
      if next > 0 then (8, next - 1) else (1, next)
    else
      (nextDepth, next)
  }

  /** The terminal classification done before a node is expanded: checkmate, or a
      hopeless position at distance 4 or more, is a loss for the side to move;
      stalemate is a draw. Neither counts an explored position. */
  function EarlyRet(n: Node, distanceFromRoot: int): (r: Option<SearchRes>)
    ensures r.Some? <==> (distanceFromRoot >= 4 && n.quitEarly) || n.checkmate || n.stalemate
    ensures (distanceFromRoot >= 4 && n.quitEarly) || n.checkmate ==> r == Some(SearchRes(Loss(n.turn), 0))
    ensures r.Some? && r.value.sortedMoves.Draw? ==> n.stalemate
    ensures !((distanceFromRoot >= 4 && n.quitEarly) || n.checkmate) && n.stalemate ==> r == Some(SearchRes(Draw, 0))
  {
    if (distanceFromRoot >= 4 && n.quitEarly) || n.checkmate then Some(SearchRes(Loss(n.turn), 0))
    else if n.stalemate then Some(SearchRes(Draw, 0))
    else None
  }

  /** A position without legal moves never reaches expansion. */
  lemma NoMovesIsTerminal(n: Node, distanceFromRoot: int)
    requires WellFormed(n) && n.edges == []
    ensures EarlyRet(n, distanceFromRoot).Some?
  {
  }

  /** Python's `s[:k]`: the first k elements, or all but the last -k when k is negative. */
  function PyTake<T>(s: seq<T>, k: int): (r: seq<T>)
    ensures k >= 0 ==> |r| == if k < |s| then k else |s|
    ensures k < 0 ==> |r| == if |s| + k > 0 then |s| + k else 0
    ensures r == s[..|r|]
  {
    if k >= 0 then (if k < |s| then s[..k] else s)
    else (if |s| + k > 0 then s[..|s| + k] else [])
  }

  // ---------------------------------------------------------------------------
  // The loop of a node: bounds, best score and the cutoff

  /** White's and Black's bounds and the best score found so far at a node. */
  datatype Bounds = Bounds(white: real, black: real, best: Option<real>)

  /** A child's score improves on the node's best for the side to move. */
  predicate Improves(turn: Color, s: Bounds, score: real)
  {
    BetterEval(Some(score), s.best, turn) < 0
  }

  /** The bounds after one examined child. */
  function Step(turn: Color, s: Bounds, score: real): (t: Bounds)
    ensures !Improves(turn, s, score) ==> t == s
    ensures Improves(turn, s, score) ==> t.best == Some(score)
    ensures turn == White ==> t.black == s.black && t.white >= s.white
    ensures turn == Black ==> t.white == s.white && t.black <= s.black
  {
    if Improves(turn, s, score) then
      var white := if turn == White && BetterEval(Some(score), Some(s.white), White) < 0 then score else s.white;
      var black := if turn == Black && BetterEval(Some(score), Some(s.black), Black) < 0 then score else s.black;
      Bounds(white, black, Some(score))
    else
      s
  }

  /** The child's score improved the best and the bounds crossed: the node stops. */
  predicate Cuts(turn: Color, s: Bounds, score: real)
  {
    Improves(turn, s, score) && Step(turn, s, score).white >= Step(turn, s, score).black
  }

  /** The bounds after the examined children's scores, in examination order. */
  function Run(turn: Color, s0: Bounds, scores: seq<real>): Bounds
    decreases |scores|
  {
    if scores == [] then s0
    else Step(turn, Run(turn, s0, scores[..|scores| - 1]), scores[|scores| - 1])
  }

  /** The k-th examined child (counting from 1) triggered the cutoff. */
  predicate CutAfter(turn: Color, s0: Bounds, scores: seq<real>, k: int)
  {
    1 <= k <= |scores| && Cuts(turn, Run(turn, s0, scores[..k - 1]), scores[k - 1])
  }

  /** Within a node only the side to move's bound moves, and only towards the opponent. */
  lemma {:induction false} RunMonotone(turn: Color, s0: Bounds, scores: seq<real>)
    ensures Run(turn, s0, scores).white >= s0.white
    ensures Run(turn, s0, scores).black <= s0.black
    ensures turn == White ==> Run(turn, s0, scores).black == s0.black
    ensures turn == Black ==> Run(turn, s0, scores).white == s0.white
    decreases |scores|
  {
    if scores != [] {
      RunMonotone(turn, s0, scores[..|scores| - 1]);
    }
  }

  /** Better for the side to move. */
  predicate AtLeastAsGood(turn: Color, a: real, b: real)
  {
    if turn == White then a >= b else a <= b
  }

  /** The tracked best score is the best examined score for the side to move. */
  lemma {:induction false} RunBest(turn: Color, s0: Bounds, scores: seq<real>)
    requires s0.best.None? && scores != []
    ensures Run(turn, s0, scores).best.Some?
    ensures Run(turn, s0, scores).best.value in scores
    ensures forall i :: 0 <= i < |scores| ==> AtLeastAsGood(turn, Run(turn, s0, scores).best.value, scores[i])
    decreases |scores|
  {
    var init := scores[..|scores| - 1];
    if init == [] {
      assert scores == [scores[0]];
    } else {
      RunBest(turn, s0, init);
      assert forall i :: 0 <= i < |init| ==> scores[i] == init[i];
    }
  }

  /** The bounds stay uncrossed until the cutoff fires. */
  lemma {:induction false} RunUncrossed(turn: Color, s0: Bounds, scores: seq<real>)
    requires s0.white < s0.black
    requires forall k :: 1 <= k <= |scores| ==> !CutAfter(turn, s0, scores, k)
    ensures Run(turn, s0, scores).white < Run(turn, s0, scores).black
    decreases |scores|
  {
    if scores != [] {
      var init := scores[..|scores| - 1];
      forall k | 1 <= k <= |init| ensures !CutAfter(turn, s0, init, k) {
        assert init[..k - 1] == scores[..k - 1];
        assert !CutAfter(turn, s0, scores, k);
      }
      RunUncrossed(turn, s0, init);
      assert scores[..|scores| - 1] == init;
      assert !CutAfter(turn, s0, scores, |scores|);
    }
  }

  /** Cutoff soundness: when the k-th child cuts, the side to move has already found a
      score at least as good as the opponent's bound it was given. */
  lemma CutMeansRefuted(turn: Color, s0: Bounds, scores: seq<real>, k: int)
    requires s0.white < s0.black && s0.best.None?
    requires CutAfter(turn, s0, scores, k)
    requires forall j :: 1 <= j < k ==> !CutAfter(turn, s0, scores, j)
    ensures var best := Run(turn, s0, scores[..k]).best;
            best.Some? &&
            (if turn == White then best.value >= s0.black else best.value <= s0.white)
  {
    var prefix := scores[..k - 1];
    forall j | 1 <= j <= |prefix| ensures !CutAfter(turn, s0, prefix, j) {
      assert prefix[..j - 1] == scores[..j - 1];
      assert !CutAfter(turn, s0, scores, j);
    }
    RunUncrossed(turn, s0, prefix);
    RunMonotone(turn, s0, prefix);
    assert scores[..k][..k - 1] == prefix;
  }

  /** The loop's reaction to one child's score: an improving score becomes the best and
      tightens the side to move's bound, and the node stops when the bounds cross. */
  method Tighten(turn: Color, whiteCanGet: real, blackCanGet: real, bestScore: Option<real>, nextScore: real)
    returns (white: real, black: real, best: Option<real>, earlyBreak: bool)
    ensures Bounds(white, black, best) == Step(turn, Bounds(whiteCanGet, blackCanGet, bestScore), nextScore)
    ensures earlyBreak == Cuts(turn, Bounds(whiteCanGet, blackCanGet, bestScore), nextScore)
  {
    white, black, best, earlyBreak := whiteCanGet, blackCanGet, bestScore, false;
    if BetterEval(Some(nextScore), bestScore, turn) < 0 {
      best := Some(nextScore);
      if turn == White && BetterEval(Some(nextScore), Some(white), White) < 0 {
        white := nextScore;
      } else if turn == Black && BetterEval(Some(nextScore), Some(black), Black) < 0 {
        black := nextScore;
      }
      if white >= black {
        earlyBreak := true;
      }
    }
  }

  // ---------------------------------------------------------------------------
  // The result of a node

  function ScoreKey(p: (Move, real)): real
  {
    p.1
  }

  function NegScoreKey(p: (Move, real)): real
  {
    -p.1
  }

  /** The examined pairs sorted stably by score, best for the side to move first. */
  function SortPairs(pairs: seq<(Move, real)>, turn: Color): (r: seq<(Move, real)>)
    ensures |r| == |pairs| && multiset(r) == multiset(pairs)
    ensures forall i, j :: 0 <= i < j < |r| ==> AtLeastAsGood(turn, r[i].1, r[j].1)
  {
    if turn == White then
      var r := SortDesc(pairs, ScoreKey);
      assert forall i, j :: 0 <= i < j < |r| ==> ScoreKey(r[i]) >= ScoreKey(r[j]);
      r
    else
      var r := SortDesc(pairs, NegScoreKey);
      assert forall i, j :: 0 <= i < j < |r| ==> NegScoreKey(r[i]) >= NegScoreKey(r[j]);
      r
  }

  /** Pairs with equal scores keep their examination order. */
  lemma SortPairsStable(pairs: seq<(Move, real)>, turn: Color, v: real)
    ensures Filter(SortPairs(pairs, turn), ScoreKey, v) == Filter(pairs, ScoreKey, v)
  {
    if turn == White {
      SortDescStable(pairs, ScoreKey, v);
    } else {
      NegatedSortStable(pairs, v);
    }
  }

  lemma NegatedSortStable(pairs: seq<(Move, real)>, v: real)
    ensures Filter(SortDesc(pairs, NegScoreKey), ScoreKey, v) == Filter(pairs, ScoreKey, v)
  {
    var r := SortDesc(pairs, NegScoreKey);
    SortDescStable(pairs, NegScoreKey, -v);
    FilterNegated(r, v);
    FilterNegated(pairs, v);
  }

  /** Selecting the score v is selecting the negated score -v. */
  lemma {:induction false} FilterNegated(s: seq<(Move, real)>, v: real)
    ensures Filter(s, NegScoreKey, -v) == Filter(s, ScoreKey, v)
  {
    if s != [] {
      FilterNegated(s[1..], v);
    }
  }
  /** A child searched recursively: the parameters it was given, the children it
      examined, the result it returned, the cache it left and the sorted lists it
      credited to the ordering strategy, in order. */
  datatype Subsearch = Subsearch(params: CalcParams, examined: seq<Explored>, res: SearchRes,
                                 cache: map<Key, SearchRes>, log: seq<seq<Move>>)

  /** One examined child: its move, its score, the positions its search explored and,
      when it was not scored statically, its recursive search. */
  datatype Explored = Explored(move: Move, score: real, count: int, sub: Option<Subsearch>)

  /** The cache after exploring a child: a searched child leaves the cache its search
      ended with; a child scored statically changes nothing. */
  function CacheOut(cache: map<Key, SearchRes>, e: Explored): map<Key, SearchRes>
  {
    if e.sub.Some? then e.sub.value.cache else cache
  }

  /** The cache after exploring the children `es` in turn. */
  function CacheAfter(cache: map<Key, SearchRes>, es: seq<Explored>): map<Key, SearchRes>
  {
    if es == [] then cache else CacheOut(CacheAfter(cache, es[..|es| - 1]), es[|es| - 1])
  }

  /** The sorted lists a child's search credited to the ordering strategy. */
  function LogOf(e: Explored): seq<seq<Move>>
  {
    if e.sub.Some? then e.sub.value.log else []
  }

  /** The sorted lists credited while exploring the children `es` in turn. */
  function Logs(es: seq<Explored>): seq<seq<Move>>
  {
    if es == [] then [] else Logs(es[..|es| - 1]) + LogOf(es[|es| - 1])
  }

  /** One more child: the cache and the credited lists take one more step. */
  lemma TrailSnoc(cache: map<Key, SearchRes>, updates: seq<seq<Move>>, examined: seq<Explored>, e: Explored)
    ensures CacheAfter(cache, examined + [e]) == CacheOut(CacheAfter(cache, examined), e)
    ensures Logs(examined + [e]) == Logs(examined) + LogOf(e)
    ensures updates + Logs(examined + [e]) == updates + Logs(examined) + LogOf(e)
  {
    assert (examined + [e])[..|examined|] == examined;
  }

  /** A log that extends another is that log followed by the rest. */
  lemma LogExtends(before: seq<seq<Move>>, after: seq<seq<Move>>)
    requires before <= after
    ensures after == before + after[|before|..]
  {
  }

  /** Appending to a log extends it. */
  lemma LogAppend(log: seq<seq<Move>>, more: seq<seq<Move>>, last: seq<seq<Move>>)
    ensures log <= log + more + last
  {
    assert (log + more + last)[..|log|] == log;
  }

  /** Every entry of `c0` is still in `c1`, with the same result. */
  ghost predicate Keeps(c0: map<Key, SearchRes>, c1: map<Key, SearchRes>)
  {
    forall k :: k in c0 ==> k in c1 && c1[k] == c0[k]
  }

  function Scores(e: seq<Explored>): (r: seq<real>)
    ensures |r| == |e| && forall i :: 0 <= i < |e| ==> r[i] == e[i].score
  {
    seq(|e|, i requires 0 <= i < |e| => e[i].score)
  }

  function Pairs(e: seq<Explored>): (r: seq<(Move, real)>)
    ensures |r| == |e| && forall i :: 0 <= i < |e| ==> r[i] == (e[i].move, e[i].score)
  {
    seq(|e|, i requires 0 <= i < |e| => (e[i].move, e[i].score))
  }

  function MovesOf(pairs: seq<(Move, real)>): (r: seq<Move>)
    ensures |r| == |pairs| && forall i :: 0 <= i < |pairs| ==> r[i] == pairs[i].0
  {
    seq(|pairs|, i requires 0 <= i < |pairs| => pairs[i].0)
  }

  function TotalExplored(e: seq<Explored>): int
  {
    if e == [] then 0 else TotalExplored(e[..|e| - 1]) + e[|e| - 1].count
  }

  /** The examined children are the first candidates in order, and none of them but
      possibly the last triggered the cutoff. */
  ghost predicate ExaminedPrefix(turn: Color, s0: Bounds, candidates: seq<Move>, examined: seq<Explored>)
  {
    && |examined| <= |candidates|
    && (forall i :: 0 <= i < |examined| ==> examined[i].move == candidates[i])
    && (forall k :: 1 <= k < |examined| ==> !CutAfter(turn, s0, Scores(examined), k))
  }

  /** Appending a child appends its score and its pair. */
  lemma ExploredSnoc(examined: seq<Explored>, e: Explored)
    ensures Scores(examined + [e]) == Scores(examined) + [e.score]
    ensures Pairs(examined + [e]) == Pairs(examined) + [(e.move, e.score)]
    ensures TotalExplored(examined + [e]) == TotalExplored(examined) + e.count
  {
    assert (examined + [e])[..|examined|] == examined;
  }

  /** A further score leaves the earlier cutoff tests unchanged. */
  lemma CutAfterSnoc(turn: Color, s0: Bounds, scores: seq<real>, v: real, k: int)
    requires 1 <= k <= |scores|
    ensures CutAfter(turn, s0, scores + [v], k) == CutAfter(turn, s0, scores, k)
  {
    assert (scores + [v])[..k - 1] == scores[..k - 1];
    assert (scores + [v])[k - 1] == scores[k - 1];
  }

  /** One more score: the bounds take one more step, and the new child cuts exactly when
      its score cuts from the bounds before it. */
  lemma RunSnoc(turn: Color, s0: Bounds, scores: seq<real>, v: real)
    ensures Run(turn, s0, scores + [v]) == Step(turn, Run(turn, s0, scores), v)
    ensures CutAfter(turn, s0, scores + [v], |scores| + 1) <==> Cuts(turn, Run(turn, s0, scores), v)
  {
    assert (scores + [v])[..|scores|] == scores;
  }

  /** Examining one more candidate after a child that did not cut. */
  lemma ExaminedStep(turn: Color, s0: Bounds, candidates: seq<Move>, examined: seq<Explored>, e: Explored)
    requires ExaminedPrefix(turn, s0, candidates, examined)
    requires !CutAfter(turn, s0, Scores(examined), |examined|)
    requires |examined| < |candidates| && e.move == candidates[|examined|]
    ensures ExaminedPrefix(turn, s0, candidates, examined + [e])
  {
    var scores := Scores(examined);
    ExploredSnoc(examined, e);
    forall k | 1 <= k < |examined| + 1 ensures !CutAfter(turn, s0, Scores(examined + [e]), k) {
      CutAfterSnoc(turn, s0, scores, e.score, k);
    }
  }

  /** The loop state of a node after examining `examined`: the pairs and the explored
      count gathered so far, the bounds the scores produced, and whether the last child
      cut. */
  ghost predicate Progress(turn: Color, s0: Bounds, candidates: seq<Move>, examined: seq<Explored>,
                           pairs: seq<(Move, real)>, explored: int, bounds: Bounds, cut: bool)
  {
    && ExaminedPrefix(turn, s0, candidates, examined)
    && cut == CutAfter(turn, s0, Scores(examined), |examined|)
    && pairs == Pairs(examined)
    && explored == TotalExplored(examined) && explored >= 0
    && bounds == Run(turn, s0, Scores(examined))
  }

  /** Examining the next candidate keeps the loop state. */
  lemma ProgressStep(turn: Color, s0: Bounds, candidates: seq<Move>, examined: seq<Explored>,
                     pairs: seq<(Move, real)>, explored: int, bounds: Bounds, e: Explored)
    requires Progress(turn, s0, candidates, examined, pairs, explored, bounds, false)
    requires |examined| < |candidates| && e.move == candidates[|examined|] && e.count >= 0
    ensures Progress(turn, s0, candidates, examined + [e], pairs + [(e.move, e.score)], explored + e.count,
                     Step(turn, bounds, e.score), Cuts(turn, bounds, e.score))
  {
    ExploredSnoc(examined, e);
    ExaminedStep(turn, s0, candidates, examined, e);
    RunSnoc(turn, s0, Scores(examined), e.score);
  }

  /** The parameters a child is explored with: the node's own, with the bounds in force. */
  function WithBounds(p: CalcParams, s: Bounds): (q: CalcParams)
    ensures q.moveDepth == p.moveDepth && q.distanceFromRoot == p.distanceFromRoot
    ensures q.interestingMovesToExtendFor == p.interestingMovesToExtendFor
    ensures q.whiteCanGet == s.white && q.blackCanGet == s.black
  {
    p.(whiteCanGet := s.white, blackCanGet := s.black)
  }

  // The four predicates below specify a search as a whole, recursively: a node's
  // outcome depends on its children's, each of which is searched from the cache and
  // the ordering updates its earlier siblings left. `linear` chooses the ordering
  // strategy, `cache0` and `updates0` are the cache and the log of ordering updates
  // in force when the node (or the child) is entered.

  /** How the child of `n` reached by `e.move` was scored when explored with `p` among
      `siblingMoveCount` siblings: with a budget that is not positive, statically with a
      count of 1; otherwise by a search given that budget, the extension counter left,
      `p`'s bounds and one more step of distance, whose outcome is `Searched` from the
      cache and updates in force, and whose scalar and count it takes. */
  ghost predicate ChildScored(n: Node, p: CalcParams, siblingMoveCount: int, linear: bool,
                              cache0: map<Key, SearchRes>, updates0: seq<seq<Move>>, e: Explored)
    decreases n, 0
  {
    && e.move in Moves(n) && siblingMoveCount > 0
    && var ext := ExtendForInterestingMoves(IsCapture(n, e.move), p.moveDepth / siblingMoveCount,
                                            p.interestingMovesToExtendFor);
       if ext.0 <= 0 then
         e.score == Child(n, e.move).score && e.count == 1 && e.sub == None
       else
         && e.sub.Some?
         && var s := e.sub.value;
         && s.params == CalcParams(ext.0, p.whiteCanGet, p.blackCanGet, p.distanceFromRoot + 1, ext.1)
         && Searched(n.edges[EdgeIndex(n, e.move)].child, s.params, cache0, linear, updates0,
                     s.examined, s.res, s.cache, updates0 + s.log)
         && (s.res.sortedMoves.OK? ==> s.res.sortedMoves.pairs != [])
         && e.score == EvalMovesAndEvals(s.res.sortedMoves)
         && e.count == s.res.positionsExplored
  }

  /** The bounds in force when the (i+1)-th child of a node is explored: those the scores
      of the children before it left. */
  function BoundsBefore(turn: Color, s0: Bounds, examined: seq<Explored>, i: int): Bounds
    requires 0 <= i <= |examined|
  {
    Run(turn, s0, Scores(examined)[..i])
  }

  /** Every examined child of a node searched with `p` was explored with the bounds, the
      cache and the ordering updates in force at its turn. */
  ghost predicate ChildrenScored(n: Node, p: CalcParams, siblingMoveCount: int, linear: bool,
                                 cache0: map<Key, SearchRes>, updates0: seq<seq<Move>>, examined: seq<Explored>)
    decreases n, 1
  {
    var s0 := Bounds(p.whiteCanGet, p.blackCanGet, None);
    forall i {:trigger BoundsBefore(n.turn, s0, examined, i)} :: 0 <= i < |examined| ==>
      ChildScored(n, WithBounds(p, BoundsBefore(n.turn, s0, examined, i)), siblingMoveCount, linear,
                  CacheAfter(cache0, examined[..i]), updates0 + Logs(examined[..i]), examined[i])
  }

  /** What an expanded node returns: the children examined are a prefix of the moves in
      the order the strategy gives them, cut to the budget; the examination stops exactly
      at the first cutoff; and the result holds the examined pairs sorted for the side to
      move, with the children's explored positions summed. */
  ghost predicate Expanded(n: Node, p: CalcParams, linear: bool, cache0: map<Key, SearchRes>,
                           updates0: seq<seq<Move>>, examined: seq<Explored>, res: SearchRes)
    decreases n, 2
  {
    var ordered := OrderWith(linear, updates0, Moves(n));
    var candidates := PyTake(ordered, p.moveDepth);
    var s0 := Bounds(p.whiteCanGet, p.blackCanGet, None);
    && ExaminedPrefix(n.turn, s0, candidates, examined)
    && (|examined| < |candidates| ==> CutAfter(n.turn, s0, Scores(examined), |examined|))
    && ChildrenScored(n, p, |ordered|, linear, cache0, updates0, examined)
    && res == SearchRes(OK(SortPairs(Pairs(examined), n.turn)), TotalExplored(examined))
  }

  /** The outcome of searching `n` with `p`, from the cache `cache0` and the ordering
      updates `updates0` in force at the call, to the cache `cache1` and the updates
      `updates1` after it: inside the cache band a cached position returns its stored
      pairs with 0 positions; otherwise a terminal position returns its verdict; in both
      cases nothing is examined and nothing changes. Any other position is expanded;
      the updates are those its children made, in order, followed by its own sorted
      moves; the cache is the one its last child left, with the node's result stored
      when it is inside the band. */
  ghost predicate Searched(n: Node, p: CalcParams, cache0: map<Key, SearchRes>, linear: bool,
                           updates0: seq<seq<Move>>, examined: seq<Explored>, res: SearchRes,
                           cache1: map<Key, SearchRes>, updates1: seq<seq<Move>>)
    decreases n, 3
  {
    if InCacheBand(p.distanceFromRoot) && n.key in cache0 then
      && res == SearchRes(cache0[n.key].sortedMoves, 0)
      && examined == [] && cache1 == cache0 && updates1 == updates0
    else if EarlyRet(n, p.distanceFromRoot).Some? then
      && res == EarlyRet(n, p.distanceFromRoot).value
      && examined == [] && cache1 == cache0 && updates1 == updates0
    else
      && Expanded(n, p, linear, cache0, updates0, examined, res)
      && updates1 == updates0 + Logs(examined) + [MovesOf(res.sortedMoves.pairs)]
      && cache1 == (if InCacheBand(p.distanceFromRoot) then CacheAfter(cache0, examined)[n.key := res]
                    else CacheAfter(cache0, examined))
  }

  /** A child explored with the bounds, cache and updates in force extends the scored
      children. */
  lemma ChildrenScoredSnoc(n: Node, p: CalcParams, siblingMoveCount: int, linear: bool,
                           cache0: map<Key, SearchRes>, updates0: seq<seq<Move>>, examined: seq<Explored>, e: Explored)
    requires ChildrenScored(n, p, siblingMoveCount, linear, cache0, updates0, examined)
    requires ChildScored(n, WithBounds(p, Run(n.turn, Bounds(p.whiteCanGet, p.blackCanGet, None), Scores(examined))),
                         siblingMoveCount, linear, CacheAfter(cache0, examined), updates0 + Logs(examined), e)
    ensures ChildrenScored(n, p, siblingMoveCount, linear, cache0, updates0, examined + [e])
  {
    var s0 := Bounds(p.whiteCanGet, p.blackCanGet, None);
    var all := examined + [e];
    ExploredSnoc(examined, e);
    var scores := Scores(all);
    forall i | 0 <= i < |all|
      ensures ChildScored(n, WithBounds(p, BoundsBefore(n.turn, s0, all, i)), siblingMoveCount, linear,
                          CacheAfter(cache0, all[..i]), updates0 + Logs(all[..i]), all[i])
    {
      assert scores[..i] == Scores(examined)[..i];
      if i < |examined| {
        assert all[..i] == examined[..i];
        assert ChildScored(n, WithBounds(p, BoundsBefore(n.turn, s0, examined, i)), siblingMoveCount, linear,
                           CacheAfter(cache0, examined[..i]), updates0 + Logs(examined[..i]), examined[i]);
      } else {
        assert all[..i] == examined;
      }
    }
  }

  /** The loop state of a node searched with `p` among whose candidates `examined` have
      been explored: the loop state proper, and each child scored with the bounds, cache
      and updates in force. */
  ghost predicate Examining(n: Node, p: CalcParams, siblingMoveCount: int, linear: bool,
                            cache0: map<Key, SearchRes>, updates0: seq<seq<Move>>, candidates: seq<Move>,
                            examined: seq<Explored>, pairs: seq<(Move, real)>, explored: int, bounds: Bounds, cut: bool)
  {
    && Progress(n.turn, Bounds(p.whiteCanGet, p.blackCanGet, None), candidates, examined, pairs, explored, bounds, cut)
    && ChildrenScored(n, p, siblingMoveCount, linear, cache0, updates0, examined)
  }

  /** Exploring the next candidate with the bounds, cache and updates in force keeps the
      loop state. */
  lemma ExaminingStep(n: Node, p: CalcParams, siblingMoveCount: int, linear: bool,
                      cache0: map<Key, SearchRes>, updates0: seq<seq<Move>>, candidates: seq<Move>,
                      examined: seq<Explored>, pairs: seq<(Move, real)>, explored: int, bounds: Bounds, e: Explored)
    requires Examining(n, p, siblingMoveCount, linear, cache0, updates0, candidates, examined, pairs, explored,
                       bounds, false)
    requires |examined| < |candidates| && e.move == candidates[|examined|] && e.count >= 0
    requires ChildScored(n, WithBounds(p, bounds), siblingMoveCount, linear, CacheAfter(cache0, examined),
                         updates0 + Logs(examined), e)
    ensures Examining(n, p, siblingMoveCount, linear, cache0, updates0, candidates, examined + [e],
                      pairs + [(e.move, e.score)], explored + e.count,
                      Step(n.turn, bounds, e.score), Cuts(n.turn, bounds, e.score))
  {
    ProgressStep(n.turn, Bounds(p.whiteCanGet, p.blackCanGet, None), candidates, examined, pairs, explored, bounds, e);
    ChildrenScoredSnoc(n, p, siblingMoveCount, linear, cache0, updates0, examined, e);
  }

  /** A finished loop over the first `moveDepth` ordered moves, stopped by a cutoff or by
      running out of candidates, yields the expanded result of the node. */
  lemma ExaminedIsExpanded(n: Node, p: CalcParams, linear: bool, cache0: map<Key, SearchRes>,
                           updates0: seq<seq<Move>>, examined: seq<Explored>,
                           pairs: seq<(Move, real)>, explored: int, bounds: Bounds, cut: bool)
    requires var ordered := OrderWith(linear, updates0, Moves(n));
             && Examining(n, p, |ordered|, linear, cache0, updates0, PyTake(ordered, p.moveDepth),
                          examined, pairs, explored, bounds, cut)
             && (|examined| < |PyTake(ordered, p.moveDepth)| ==> cut)
    ensures var res := SearchRes(OK(SortPairs(pairs, n.turn)), explored);
            && Expanded(n, p, linear, cache0, updates0, examined, res)
            && explored >= 0
            && |res.sortedMoves.pairs| == |examined|
  {
  }

  /** The bounds in force before the (i+1)-th child of a node whose earlier children did
      not cut lie inside the node's window, are still open, and only the side to move's
      bound has moved. */
  lemma BoundsBeforeChild(turn: Color, s0: Bounds, scores: seq<real>, i: int)
    requires s0.white < s0.black
    requires 0 <= i < |scores|
    requires forall k :: 1 <= k < |scores| ==> !CutAfter(turn, s0, scores, k)
    ensures var r := Run(turn, s0, scores[..i]);
            && s0.white <= r.white < r.black <= s0.black
            && (turn == White ==> r.black == s0.black)
            && (turn == Black ==> r.white == s0.white)
  {
    var prefix := scores[..i];
    forall k | 1 <= k <= |prefix| ensures !CutAfter(turn, s0, prefix, k) {
      assert prefix[..k - 1] == scores[..k - 1];
      assert !CutAfter(turn, s0, scores, k);
    }
    RunUncrossed(turn, s0, prefix);
    RunMonotone(turn, s0, prefix);
  }

  /** Every child of an expanded node that was searched recursively is one step further
      from the root, has a positive budget and no more extensions than the node, and gets
      a window inside the node's own that is still open: only the side to move's bound
      has moved, towards the opponent's, and it has not reached it. */
  lemma SubsearchWindow(n: Node, p: CalcParams, linear: bool, cache0: map<Key, SearchRes>,
                        updates0: seq<seq<Move>>, examined: seq<Explored>, res: SearchRes, i: int)
    requires Expanded(n, p, linear, cache0, updates0, examined, res)
    requires p.whiteCanGet < p.blackCanGet
    requires 0 <= i < |examined| && examined[i].sub.Some?
    ensures var q := examined[i].sub.value.params;
            && p.whiteCanGet <= q.whiteCanGet < q.blackCanGet <= p.blackCanGet
            && (n.turn == White ==> q.blackCanGet == p.blackCanGet)
            && (n.turn == Black ==> q.whiteCanGet == p.whiteCanGet)
            && q.distanceFromRoot == p.distanceFromRoot + 1
            && q.moveDepth > 0
            && (p.interestingMovesToExtendFor >= 0 ==>
                  0 <= q.interestingMovesToExtendFor <= p.interestingMovesToExtendFor)
  {
    var s0 := Bounds(p.whiteCanGet, p.blackCanGet, None);
    var ordered := OrderWith(linear, updates0, Moves(n));
    assert ChildScored(n, WithBounds(p, BoundsBefore(n.turn, s0, examined, i)), |ordered|, linear,
                       CacheAfter(cache0, examined[..i]), updates0 + Logs(examined[..i]), examined[i]);
    BoundsBeforeChild(n.turn, s0, Scores(examined), i);
  }

  /** The node keyed `k` lies in the subtree of `n`, whose root is at distance `d`, at a
      distance inside the cache band. */
  ghost predicate InBandBelow(n: Node, d: int, k: Key)
    decreases n
  {
    || (InCacheBand(d) && n.key == k)
    || exists i :: 0 <= i < |n.edges| && InBandBelow(n.edges[i].child, d + 1, k)
  }

  /** A search keeps every entry it found in the cache, and every entry it adds is the
      key of a node of the searched subtree inside the cache band. */
  lemma {:induction false} SearchedCache(n: Node, p: CalcParams, cache0: map<Key, SearchRes>, linear: bool,
                                         updates0: seq<seq<Move>>, examined: seq<Explored>, res: SearchRes,
                                         cache1: map<Key, SearchRes>, updates1: seq<seq<Move>>)
    requires Searched(n, p, cache0, linear, updates0, examined, res, cache1, updates1)
    ensures Keeps(cache0, cache1)
    ensures forall k :: k in cache1 && k !in cache0 ==> InBandBelow(n, p.distanceFromRoot, k)
    decreases n, 1
  {
    if InCacheBand(p.distanceFromRoot) && n.key in cache0 {
    } else if EarlyRet(n, p.distanceFromRoot).Some? {
    } else {
      var ordered := OrderWith(linear, updates0, Moves(n));
      ChildrenCache(n, p, |ordered|, linear, cache0, updates0, examined, |examined|);
      assert examined[..|examined|] == examined;
      forall k | k in cache1 && k !in cache0 ensures InBandBelow(n, p.distanceFromRoot, k) {
        if k != n.key || !InCacheBand(p.distanceFromRoot) {
          assert k in CacheAfter(cache0, examined);
        }
      }
    }
  }

  /** The same for the cache the first `j` examined children of a node leave: the
      entries added are keys of nodes below one of the node's children. */
  lemma {:induction false} ChildrenCache(n: Node, p: CalcParams, siblingMoveCount: int, linear: bool,
                                         cache0: map<Key, SearchRes>, updates0: seq<seq<Move>>,
                                         examined: seq<Explored>, j: int)
    requires ChildrenScored(n, p, siblingMoveCount, linear, cache0, updates0, examined)
    requires 0 <= j <= |examined|
    ensures Keeps(cache0, CacheAfter(cache0, examined[..j]))
    ensures forall k :: k in CacheAfter(cache0, examined[..j]) && k !in cache0 ==>
              exists i :: 0 <= i < |n.edges| && InBandBelow(n.edges[i].child, p.distanceFromRoot + 1, k)
    decreases n, 0, j
  {
    if j > 0 {
      ChildrenCache(n, p, siblingMoveCount, linear, cache0, updates0, examined, j - 1);
      var before := examined[..j - 1];
      assert examined[..j][..j - 1] == before;
      var c := CacheAfter(cache0, before);
      var e := examined[j - 1];
      var s0 := Bounds(p.whiteCanGet, p.blackCanGet, None);
      assert ChildScored(n, WithBounds(p, BoundsBefore(n.turn, s0, examined, j - 1)), siblingMoveCount, linear,
                         c, updates0 + Logs(before), e);
      if e.sub.Some? {
        var s := e.sub.value;
        var i := EdgeIndex(n, e.move);
        SearchedCache(n.edges[i].child, s.params, c, linear, updates0 + Logs(before), s.examined, s.res,
                      s.cache, updates0 + Logs(before) + s.log);
        forall k | k in s.cache && k !in cache0
          ensures exists i :: 0 <= i < |n.edges| && InBandBelow(n.edges[i].child, p.distanceFromRoot + 1, k)
        {
          if k !in c {
            assert InBandBelow(n.edges[i].child, p.distanceFromRoot + 1, k);
          }
        }
      }
    }
  }

  /** The scalar the parent receives from an expanded node is the best examined score
      for the side to move, the same score the loop tracked as `best_score`. */
  lemma NodeScalarIsBest(turn: Color, s0: Bounds, examined: seq<Explored>)
    requires s0.best.None? && examined != []
    ensures var v := EvalMovesAndEvals(OK(SortPairs(Pairs(examined), turn)));
            && v in Scores(examined)
            && (forall i :: 0 <= i < |examined| ==> AtLeastAsGood(turn, v, examined[i].score))
            && Run(turn, s0, Scores(examined)).best == Some(v)
  {
    var pairs := Pairs(examined);
    var r := SortPairs(pairs, turn);
    var v := r[0].1;
    assert r[0] in multiset(pairs);
    forall i | 0 <= i < |examined| ensures AtLeastAsGood(turn, v, examined[i].score) {
      assert pairs[i] in multiset(r);
      var j :| 0 <= j < |r| && r[j] == pairs[i];
    }
    RunBest(turn, s0, Scores(examined));
    var b := Run(turn, s0, Scores(examined)).best.value;
    var jb :| 0 <= jb < |examined| && Scores(examined)[jb] == b;
    var jv :| 0 <= jv < |pairs| && pairs[jv] == r[0];
    assert AtLeastAsGood(turn, b, v) && AtLeastAsGood(turn, v, b);
  }

  /** Every stored result is a non-empty list of pairs. */
  ghost predicate CacheValid(cache: map<Key, SearchRes>)
  {
    forall k :: k in cache ==> cache[k].sortedMoves.OK? && cache[k].sortedMoves.pairs != []
  }

  predicate InCacheBand(distanceFromRoot: int)
  {
    3 <= distanceFromRoot <= 6
  }

  /** The first moveDepth moves of an ordering of the legal moves are legal moves, and
      there is one when the budget is positive and a legal move exists. */
  lemma CandidatesLegal(legal: seq<Move>, ordered: seq<Move>, moveDepth: int)
    requires multiset(ordered) == multiset(legal)
    ensures forall m :: m in PyTake(ordered, moveDepth) ==> m in legal
    ensures moveDepth > 0 && legal != [] ==> PyTake(ordered, moveDepth) != []
  {
    assert |multiset(ordered)| == |multiset(legal)|;
    forall m | m in PyTake(ordered, moveDepth) ensures m in legal {
      assert m in multiset(ordered);
    }
  }

  // ---------------------------------------------------------------------------
  // The search

  class Search {
    const order: SearchOrder
    /** The repetition cache: results of nodes at distance 3..6, by position key. */
    var repeatMoves: map<Key, SearchRes>

    /** Every cached result is a non-empty list of pairs, and the ordering strategy's
        state is the one its log of updates produces. */
    ghost predicate Valid()
      reads this, order, order.reward
    {
      CacheValid(repeatMoves) && order.Valid()
    }

    constructor (order: SearchOrder)
      requires order.Valid()
      ensures this.order == order && repeatMoves == map[] && Valid()
    {
      this.order := order;
      repeatMoves := map[];
    }

    /** Scores one move of the current position: plays it, scores the resulting position
        statically or by a recursive search, and takes it back. */
    method ExploreMove(b: Board, move: Move, prev: CalcParams, siblingMoveCount: int)
      returns (score: real, explored: int, ghost e: Explored)
      requires b.Valid() && Valid()
      requires move in Moves(b.Current()) && siblingMoveCount > 0
      modifies this, b, order, order.reward
      ensures b.Valid() && b.stack == old(b.stack) && Valid()
      ensures Keeps(old(repeatMoves), repeatMoves)
      ensures explored >= 0 && e.move == move && e.score == score && e.count == explored
      ensures ChildScored(old(b.Current()), prev, siblingMoveCount, order.linear, old(repeatMoves),
                          old(order.updates), e)
      ensures repeatMoves == CacheOut(old(repeatMoves), e) && order.updates == old(order.updates) + LogOf(e)
      ensures e.sub.None? ==> unchanged(order, order.reward)
      decreases Height(b.Current()), 0
    {
      ghost var n := b.Current();
      // Python's floor division; for a positive divisor Dafny's `/` rounds the same way
      var nextDepth := prev.moveDepth / siblingMoveCount;
      var ext := ExtendForInterestingMoves(IsCapture(b.Current(), move), nextDepth,
                                           prev.interestingMovesToExtendFor);
      nextDepth := ext.0;
      b.Push(move);
      if nextDepth <= 0 {
        score, explored := b.Current().score, 1;
        e := Explored(move, score, explored, None);
      } else {
        ChildLower(n, move);
        var params := CalcParams(nextDepth, prev.whiteCanGet, prev.blackCanGet,
                                 prev.distanceFromRoot + 1, ext.1);
        ghost var updates0 := order.updates;
        var searchRes;
        ghost var subExamined;
        searchRes, subExamined := CalcBestMove(b, params);
        score, explored := EvalMovesAndEvals(searchRes.sortedMoves), searchRes.positionsExplored;
        ghost var log := order.updates[|updates0|..];
        LogExtends(updates0, order.updates);
        e := Explored(move, score, explored, Some(Subsearch(params, subExamined, searchRes, repeatMoves, log)));
      }
      b.Pop();
    }

    /** One turn of the node loop: explores the `idx`-th candidate with the node's
        parameters and the bounds in force, and tightens the bounds with its score. The
        node was entered with the cache `cache0` and the updates `updates0`. */
    method ExploreCandidate(b: Board, p: CalcParams, candidates: seq<Move>, siblingMoveCount: int, idx: int,
                            whiteCanGet: real, blackCanGet: real, bestScore: Option<real>,
                            ghost cache0: map<Key, SearchRes>, ghost updates0: seq<seq<Move>>,
                            ghost examined: seq<Explored>, ghost pairs: seq<(Move, real)>, ghost explored: int)
      returns (nextScore: real, additional: int, white: real, black: real, best: Option<real>,
               earlyBreak: bool, ghost e: Explored)
      requires b.Valid() && Valid()
      requires forall m :: m in candidates ==> m in Moves(b.Current())
      requires siblingMoveCount > 0 && 0 <= idx == |examined| < |candidates|
      requires Examining(b.Current(), p, siblingMoveCount, order.linear, cache0, updates0, candidates,
                         examined, pairs, explored, Bounds(whiteCanGet, blackCanGet, bestScore), false)
      requires repeatMoves == CacheAfter(cache0, examined) && order.updates == updates0 + Logs(examined)
      modifies this, b, order, order.reward
      ensures b.Valid() && b.stack == old(b.stack) && Valid()
      ensures Keeps(old(repeatMoves), repeatMoves)
      ensures e.move == candidates[idx] && e.score == nextScore && e.count == additional
      ensures Examining(old(b.Current()), p, siblingMoveCount, order.linear, cache0, updates0, candidates,
                        examined + [e], pairs + [(candidates[idx], nextScore)], explored + additional,
                        Bounds(white, black, best), earlyBreak)
      ensures repeatMoves == CacheAfter(cache0, examined + [e]) && order.updates == updates0 + Logs(examined + [e])
      decreases Height(b.Current()), 1
    {
      var n := b.Current();
      var move := candidates[idx];
      var params := WithBounds(p, Bounds(whiteCanGet, blackCanGet, bestScore));
      nextScore, additional, e := ExploreMove(b, move, params, siblingMoveCount);
      ExaminingStep(n, p, siblingMoveCount, order.linear, cache0, updates0, candidates, examined, pairs, explored,
                    Bounds(whiteCanGet, blackCanGet, bestScore), e);
      TrailSnoc(cache0, updates0, examined, e);
      white, black, best, earlyBreak := Tighten(n.turn, whiteCanGet, blackCanGet, bestScore, nextScore);
    }

    /** Explores the candidate moves of the current position in order, each with a
        child bound pair taken from the current bounds, and stops at the first child
        whose score makes White's bound reach Black's. */
    method ExamineMoves(b: Board, p: CalcParams, candidates: seq<Move>, siblingMoveCount: int)
      returns (bestMoves: seq<(Move, real)>, positionsExplored: int, earlyBreak: bool,
               ghost examined: seq<Explored>, ghost bounds: Bounds)
      requires b.Valid() && Valid()
      requires forall m :: m in candidates ==> m in Moves(b.Current())
      requires siblingMoveCount > 0
      modifies this, b, order, order.reward
      ensures b.Valid() && b.stack == old(b.stack) && Valid()
      ensures Keeps(old(repeatMoves), repeatMoves)
      ensures Examining(old(b.Current()), p, siblingMoveCount, order.linear, old(repeatMoves), old(order.updates),
                        candidates, examined, bestMoves, positionsExplored, bounds, earlyBreak)
      ensures repeatMoves == CacheAfter(old(repeatMoves), examined)
      ensures order.updates == old(order.updates) + Logs(examined)
      ensures |examined| < |candidates| ==> earlyBreak
      ensures candidates != [] ==> examined != []
      decreases Height(b.Current()), 2
    {
      var n := b.Current();
      examined := [];
      bestMoves := [];
      var bestScore: Option<real> := None;
      var whiteCanGet, blackCanGet := p.whiteCanGet, p.blackCanGet;
      positionsExplored := 0;
      var idx := 0;
      earlyBreak := false;
      while idx < |candidates| && !earlyBreak
        invariant 0 <= idx <= |candidates| && |examined| == idx
        invariant b.Valid() && b.stack == old(b.stack) && b.Current() == n && Valid()
        invariant Keeps(old(repeatMoves), repeatMoves)
        invariant Examining(n, p, siblingMoveCount, order.linear, old(repeatMoves), old(order.updates), candidates,
                            examined, bestMoves, positionsExplored, Bounds(whiteCanGet, blackCanGet, bestScore),
                            earlyBreak)
        invariant repeatMoves == CacheAfter(old(repeatMoves), examined)
        invariant order.updates == old(order.updates) + Logs(examined)
        decreases |candidates| - idx
      {
        var move := candidates[idx];
        var nextScore, additional;
        ghost var e;
        nextScore, additional, whiteCanGet, blackCanGet, bestScore, earlyBreak, e :=
          ExploreCandidate(b, p, candidates, siblingMoveCount, idx, whiteCanGet, blackCanGet, bestScore,
                           old(repeatMoves), old(order.updates), examined, bestMoves, positionsExplored);
        positionsExplored := positionsExplored + additional;
        bestMoves := bestMoves + [(move, nextScore)];
        examined := examined + [e];
        idx := idx + 1;
      }
      bounds := Bounds(whiteCanGet, blackCanGet, bestScore);
    }

    /** Expands a non-terminal position: orders its legal moves, examines the first
        `moveDepth` of them, sorts the examined pairs for the side to move and credits
        the sorted moves to the ordering strategy. */
    method Expand(b: Board, p: CalcParams) returns (res: SearchRes, ghost examined: seq<Explored>)
      requires b.Valid() && Valid()
      requires EarlyRet(b.Current(), p.distanceFromRoot).None?
      modifies this, b, order, order.reward
      ensures b.Valid() && b.stack == old(b.stack) && Valid()
      ensures Keeps(old(repeatMoves), repeatMoves)
      ensures res.positionsExplored >= 0 && res.sortedMoves.OK?
      ensures p.moveDepth > 0 ==> res.sortedMoves.pairs != []
      ensures Expanded(old(b.Current()), p, order.linear, old(repeatMoves), old(order.updates), examined, res)
      ensures repeatMoves == CacheAfter(old(repeatMoves), examined)
      ensures order.updates == old(order.updates) + Logs(examined) + [MovesOf(res.sortedMoves.pairs)]
      decreases Height(b.Current()), 3
    {
      var n := b.Current();
      var ordered := order.OrderMoves(Moves(n));
      var candidates := PyTake(ordered, p.moveDepth);
      CandidatesLegal(Moves(n), ordered, p.moveDepth);
      var bestMoves, positionsExplored;
      var cut;
      ghost var bounds;
      bestMoves, positionsExplored, cut, examined, bounds := ExamineMoves(b, p, candidates, |ordered|);
      ExaminedIsExpanded(n, p, order.linear, old(repeatMoves), old(order.updates), examined, bestMoves,
                         positionsExplored, bounds, cut);

      var sortedMoves := SortPairs(bestMoves, n.turn);
      order.UpdatePriors(MovesOf(sortedMoves));
      res := SearchRes(OK(sortedMoves), positionsExplored);
    }

    /** Searches the current position. */
    method CalcBestMove(b: Board, p: CalcParams) returns (res: SearchRes, ghost examined: seq<Explored>)
      requires b.Valid() && Valid()
      requires p.distanceFromRoot > 0 ==> p.moveDepth > 0
      modifies this, b, order, order.reward
      ensures b.Valid() && b.stack == old(b.stack) && Valid()
      ensures Keeps(old(repeatMoves), repeatMoves)
      ensures old(order.updates) <= order.updates
      ensures res.positionsExplored >= 0
      ensures p.moveDepth > 0 && res.sortedMoves.OK? ==> res.sortedMoves.pairs != []
      ensures Searched(old(b.Current()), p, old(repeatMoves), order.linear, old(order.updates),
                       examined, res, repeatMoves, order.updates)
      ensures var n := old(b.Current());
              (InCacheBand(p.distanceFromRoot) && n.key in old(repeatMoves)) || EarlyRet(n, p.distanceFromRoot).Some?
              ==> unchanged(order, order.reward)
      decreases Height(b.Current()), 4
    {
      examined := [];
      var n := b.Current();
      var posKey: Option<Key> := None;
      if 3 <= p.distanceFromRoot && p.distanceFromRoot <= 6 {
        posKey := Some(n.key);
        if n.key in repeatMoves {
          var cached := repeatMoves[n.key];
          return SearchRes(cached.sortedMoves, 0), [];
        }
      }

      var early := EarlyRet(n, p.distanceFromRoot);
      if early.Some? {
        return early.value, [];
      }

      res, examined := Expand(b, p);
      LogAppend(old(order.updates), Logs(examined), [MovesOf(res.sortedMoves.pairs)]);
      if posKey.Some? {
        repeatMoves := repeatMoves[posKey.value := res];
      }
    }
  }

  /** The search entry point: a fresh move-ordering strategy and cache, the move budget
      given, both bounds at their worst, distance 0 and four capture extensions. It also
      returns, as ghosts, the cache and the log of ordering updates the search left. */
  method Go(b: Board, moveDepth: int, linear: bool)
    returns (res: SearchRes, ghost examined: seq<Explored>, ghost cache: map<Key, SearchRes>,
             ghost log: seq<seq<Move>>)
    requires b.Valid()
    modifies b
    ensures b.Valid() && b.stack == old(b.stack)
    ensures Searched(old(b.Current()), CalcParams(moveDepth, WorstWhiteScore, WorstBlackScore, 0, 4), map[], linear,
                     [], examined, res, cache, log)
    ensures var n := old(b.Current());
            if EarlyRet(n, 0).Some? then res == EarlyRet(n, 0).value
            else && OrderWith(linear, [], Moves(n)) == Moves(n)
                 && Expanded(n, CalcParams(moveDepth, WorstWhiteScore, WorstBlackScore, 0, 4), linear, map[], [],
                             examined, res)
  {
    var searchOrder := new SearchOrder(linear);
    var search := new Search(searchOrder);
    FreshOrder(linear, Moves(b.Current()));
    var params := CalcParams(moveDepth, WorstWhiteScore, WorstBlackScore, 0, 4);
    res, examined := search.CalcBestMove(b, params);
    cache, log := search.repeatMoves, searchOrder.updates;
  }
}
