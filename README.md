# chess-sauce: the budgeted search, the PeSTO evaluator, move ordering and UCI parsing

This project models the core of the `chess-sauce` engine and proves properties of the model.

**The search** (`engine.dfy`, module `Engine`)
- Each node shares its move budget among its legal moves by floor division. A shallow capture sets a child's budget to 8 while the extension counter lasts, and to 1 once it is spent.
- A child whose budget is not positive gets the static score. Any other child is searched recursively on a shared board whose move stack is pushed and popped.
- The side to move tightens its own bound through the comparator `better_eval`. The node stops right after a child that improves the best score and leaves White's bound at or above Black's.
- The examined `(move, score)` pairs are sorted stably, best for the side to move first, and handed to the ordering strategy.
- Nodes at distance 3..6 from the root are stored in a repetition cache keyed by position.
- The ordering strategy's state is determined by the log of sorted lists it has been told; a node's own list is told after all of its children's.
- The rules engine is an abstract finite game tree (`game_tree.dfy`). Each node carries:
  - the side to move and the legal moves in enumeration order;
  - each move's capture flag and resulting position;
  - the checkmate, stalemate and quit-early verdicts;
  - the static score and the position key.

**The evaluator** (`eval_piece_vals.dfy`, module `PieceSquare`)
- PeSTO base values and the twelve 64-entry piece-square tables.
- Black reads White's values at the rank-mirrored square, negated.
- The game phase is the summed phase weights over 24. A piece's value blends its midgame and endgame values by that phase.
- `Diff` is the incremental change of one move: promotion, capture and the en-passant capture square.
- The table index is modelled as written: `(7 - rank) + file`, with no factor 8. It only ever reads entries 0..14, and `TableIndexCollision` shows two squares sharing an entry.

**Move ordering** (`linear_reward.dfy`, `random_order.dfy`, `search_order.dfy`)
- The prior-weighted strategy keeps a map `move -> (sum, count)`, updated in place. It orders moves stably by `sum // count`, largest first.
- The unordered strategy returns the legal moves as enumerated, ignores updates and keeps no state. Its `OrderMoves` is a function, so equal boards always get the same list.
- `sorted(..., reverse=...)` is the stable insertion sort of `sorting.dfy`.

**UCI** (`uci.dfy`, module `Uci`)
- The fixed replies to `uci`, `isready`, `ucinewgame` and `quit`.
- The option lines.
- The index-driven `go` parser, proved against a reference reading by clauses.
- The token indexing of `position`.
- Dispatch of a command to its reply, or to an exception.

Some facts of the code that the model keeps:
- A node that stops at a cutoff still returns the `OK` list of the pairs examined so far.
- Only captures are granted extra budget.
- A quit-early verdict is a loss for the side to move.
- A loss scores exactly ±1 000 000 000.
- The cache is keyed by the position (its FEN).

## Model

| member | source | states |
|---|---|---|
| Chess.Mirror | my_engine/eval_piece_vals.py:166-167 | the mirrored square has rank 7 - rank and the same file |
| Chess.SquareAt | my_engine/eval_piece_vals.py:222 | the square built from a file and rank has that file and rank |
| PieceSquare.TableIndex | my_engine/eval_piece_vals.py:169 | the index is (7 - rank) + file and lies in 0..14, inside every 64-entry table |
| PieceSquare.TableIndexCollision | my_engine/eval_piece_vals.py:169-171 | a1 and b2 both read entry 7, so every piece type gets equal values on them |
| PieceSquare.PieceValues | my_engine/eval_piece_vals.py:160-172 | White: base value plus table entry, for midgame and endgame; Black: the negated White values at the mirrored square |
| PieceSquare.ColourFlip | my_engine/eval_piece_vals.py:160-172 | a piece's values are the negation of the opposite-coloured piece's on the mirrored square |
| PieceSquare.PieceValue | my_engine/eval_piece_vals.py:174-177 | a piece's value is its midgame value at ratio 1, its endgame value at ratio 0, and between the two for ratios in between |
| PieceSquare.Mix | my_engine/eval_piece_vals.py:175-177 | the blend is the midgame value at ratio 1, the endgame value at ratio 0, and between them for ratios in between |
| PieceSquare.PieceAtFound | my_engine/eval_piece_vals.py:199 | the lookup finds nothing exactly when no piece stands on the square, and what it finds stands there |
| PieceSquare.PieceAtIndex | my_engine/eval_piece_vals.py:199 | in a piece map with distinct squares, the lookup on a piece's square returns that piece |
| PieceSquare.GamePhase | my_engine/eval_piece_vals.py:182-185 | the phase is never negative |
| PieceSquare.PhaseFromCounts | my_engine/eval_piece_vals.py:179-185 | the phase is (knights + bishops + 2·rooks + 4·queens) / 24; pawns and kings weigh 0 |
| PieceSquare.StartingMaterialIsMidgame | my_engine/eval_piece_vals.py:179-185 | four knights, four bishops, four rooks and two queens give phase exactly 1 |
| PieceSquare.EvalPieceVals | my_engine/eval_piece_vals.py:188-192 | returns the board's phase, and a score equal to the blend, at that phase, of the summed midgame and summed endgame values |
| PieceSquare.SumValuesLinear | my_engine/eval_piece_vals.py:191-192 | summing the blended piece values is blending the two sums |
| PieceSquare.MirrorBoardNegates | my_engine/eval_piece_vals.py:188-192 | mirroring every piece and swapping its colour negates the score and keeps the phase |
| PieceSquare.CaptureRank | my_engine/eval_piece_vals.py:215-220 | the captured piece's rank is the destination's; en passant gives 3 for destination rank 2 and 4 otherwise |
| PieceSquare.CaptureSquare | my_engine/eval_piece_vals.py:215-222 | the capture square has the destination's file and the capture rank |
| PieceSquare.Diff | my_engine/eval_piece_vals.py:195-238 | fails exactly when the origin is empty or a capture finds the capture square empty; a success changes the phase by between -8/24 and 4/24 |
| PieceSquare.DiffErrors | my_engine/eval_piece_vals.py:199-225 | `Diff` fails with the assertion exactly when the origin is empty; it fails with the ValueError exactly when a capture finds the capture square empty, naming that file and rank |
| PieceSquare.DiffQuietPhase | my_engine/eval_piece_vals.py:201-205 | a move that neither captures nor promotes changes the phase by 0 |
| PieceSquare.DiffPromotionPhase | my_engine/eval_piece_vals.py:201-203 | a promotion without capture changes the phase by (w(promotion) - w(pawn)) / 24 |
| PieceSquare.DiffCapturePhase | my_engine/eval_piece_vals.py:230-233 | a capture without promotion changes the phase by -w(captured) / 24 |
| PieceSquare.DiffCapturePromotionPhase | my_engine/eval_piece_vals.py:199-233 | a capture with promotion changes the phase by (w(promotion) - w(pawn) - w(captured)) / 24 |
| PieceSquare.CaptureChangesPhase | my_engine/eval_piece_vals.py:182-185 | replacing one piece and removing another moves the board's phase by the weight gained less the weights replaced and removed, over 24 |
| PieceSquare.DiffCaptureIsPhaseChange | my_engine/eval_piece_vals.py:199-233 | for every capture, with or without promotion, `Diff` succeeds and its phase change is exactly the change of `game_phase` between the boards before and after the move |
| PieceSquare.DiffQuietValue | my_engine/eval_piece_vals.py:206-238 | without capture, `Diff` is the arriving piece's value change blended at the phase plus the phase change, paired with that phase change |
| PieceSquare.ReplaceChangesSums | my_engine/eval_piece_vals.py:188-192 | replacing one piece changes the summed values by the blend of that piece's value change, and the summed weights by its weight change |
| PieceSquare.ReplaceChangesBoard | my_engine/eval_piece_vals.py:182-192 | replacing one piece moves the phase by the weight change over 24, and the summed values at the moved phase by the blend of the piece's change |
| PieceSquare.ReplaceSameWeight | my_engine/eval_piece_vals.py:188-192 | a replacement by a piece of equal weight keeps the phase and changes the score by the piece's blended value change |
| PieceSquare.DiffQuietIsEvalChange | my_engine/eval_piece_vals.py:206-238 | for a quiet, non-promoting move at the board's own phase, `Diff` succeeds, its phase change is 0, and its score change is exactly the change of `eval_piece_vals` between the boards before and after the move |
| Engine.EvalMovesAndEvals | my_engine/engine.py:63-70 | a draw is 0; a loss of White is -1 000 000 000 and a loss of Black +1 000 000 000; an OK list gives its first pair's score |
| Engine.BetterEval | my_engine/engine.py:87-96 | 1 when `a` is missing; otherwise -1 when `b` is missing; otherwise -1 exactly when `a` is strictly better for the colour, so ties give 1 |
| Engine.ExtendForInterestingMoves | my_engine/engine.py:99-108 | a non-capture, or a capture with budget 8 or more, is unchanged; a shallower capture gets (8, n - 1) while n > 0 and (1, n) otherwise; the counter never grows and never drops below 0 |
| Engine.EarlyRet | my_engine/engine.py:110-118 | checkmate, or quit-early at distance 4 or more, is a loss for the side to move; otherwise stalemate is `Draw` with 0 positions; otherwise there is no early result |
| Engine.NoMovesIsTerminal | my_engine/engine.py:110-118 | a position without legal moves is always classified before expansion |
| Engine.PyTake | my_engine/engine.py:204 | the slice `[:k]`: the first k moves, or all but the last -k for a negative k |
| Engine.CandidatesLegal | my_engine/engine.py:198-204 | the moves examined are legal moves, and there is one when the budget is positive and the position has legal moves |
| Engine.Step | my_engine/engine.py:221-229 | a non-improving score changes nothing; an improving one becomes the best; only the side to move's bound moves, and only towards the opponent |
| Engine.Tighten | my_engine/engine.py:221-232 | the loop body's bound update is `Step`, and it breaks exactly when the score improves and the bounds cross |
| Engine.RunMonotone | my_engine/engine.py:221-229 | within a node White's bound never decreases, Black's never increases, and the other side's bound stays fixed |
| Engine.RunBest | my_engine/engine.py:221-223 | the tracked best score is one of the examined scores and at least as good as each of them for the side to move |
| Engine.RunUncrossed | my_engine/engine.py:230-232 | until a cutoff fires, White's bound stays below Black's |
| Engine.CutMeansRefuted | my_engine/engine.py:221-232 | when the k-th child cuts, the best found already reaches the opponent's bound the node was given |
| Engine.SortPairs | my_engine/engine.py:242-243 | a permutation of the examined pairs, scores non-increasing for White and non-decreasing for Black |
| Engine.SortPairsStable | my_engine/engine.py:242-243 | pairs with equal scores keep their examination order |
| Engine.NodeScalarIsBest | my_engine/engine.py:242-245 | the scalar of the sorted result is the best examined score for the side to move, the loop's `best_score` |
| Engine.Search.ExploreMove | my_engine/engine.py:121-173 | the board's stack is restored; a child whose extended budget is not positive gets its static score, counts exactly 1, and leaves the cache and the ordering untouched; any other child is searched with that budget, the extension counter left, the bounds given and one more step of distance, returns that search's scalar and count, and that search has the outcome `CalcBestMove` promises from the cache and ordering log in force; the cache and the log become exactly the ones that search leaves |
| Engine.Search.ExploreCandidate | my_engine/engine.py:205-232 | one turn of the loop: the candidate is explored with the node's parameters and the bounds in force, its pair and count are added, and the bounds take one `Step`, breaking exactly on a cutoff; the cache and the log become those the examined children left, in order |
| Engine.Search.ExamineMoves | my_engine/engine.py:204-232 | the children examined are the first candidates in order, each explored with the bounds the earlier scores left and the cache and log the earlier children left; the examination stops exactly at the first cutoff; it returns the examined pairs and the sum of their counts |
| Engine.BoundsBeforeChild | my_engine/engine.py:202-232 | before each child of a node whose earlier children did not cut, the bounds lie inside the node's window, are still open, and only the side to move's bound has moved |
| Engine.SubsearchWindow | my_engine/engine.py:149-153 | every recursively searched child of an expanded node is one step further from the root, has a positive budget and no more extensions than the node, and gets an open window inside the node's own |
| Engine.ExaminedIsExpanded | my_engine/engine.py:204-245 | a finished loop over the first move_depth ordered moves gives the node's `OK` result: the examined pairs sorted, and the sum of their counts |
| Engine.SearchedCache | my_engine/engine.py:184-248 | a search never changes or drops a cached entry, and every key it adds is the position of a node of its own subtree at distance 3..6 |
| Engine.ChildrenCache | my_engine/engine.py:205-232 | the same for the cache a node's examined children leave: old entries kept, new keys from the subtrees below its children |
| Engine.Search.constructor | my_engine/engine.py:250-259 | the search starts with an empty cache and the strategy it is given, whose priors are the replay of its log; both hold for the whole search (`Search.Valid`, which also keeps every cached result a non-empty `OK` list) |
| Engine.Search.Expand | my_engine/engine.py:195-245 | orders the legal moves by the strategy's log, examines a prefix of the first move_depth of them, each child scored statically or by a search with the bounds, cache and log in force, returns `OK` of the examined pairs sorted for the side to move, and appends exactly one list to the log, those moves in that order, after the children's |
| Engine.Search.CalcBestMove | my_engine/engine.py:176-248 | at distance 3..6 a cached key returns the stored moves with 0 positions and changes nothing; otherwise terminals are returned unexpanded, uncached, with nothing changed; otherwise the node is expanded and, at distance 3..6, stored under its own key; old cache entries are kept, the log only grows, and the board's stack is restored |
| Engine.Go | my_engine/engine.py:250-273 | a fresh strategy and cache, the budget given, both bounds at their worst, distance 0 and four extensions: the root is classified, or expanded over the legal moves in enumeration order, with the whole search below it, its cache and its ordering log, as `CalcBestMove` promises |
| GameTree.Board.Push | my_engine/engine.py:144 | pushing a legal move appends it to the stack and moves the board to that child |
| GameTree.Board.Pop | my_engine/engine.py:172 | popping removes the last move from the stack |
| SearchOrder.ReplaySnoc | my_engine/linear_reward.py:23-27 | replaying a log extended by one list credits that list to the replay of the log, so the priors are `Updated` applied to each list of the log in turn |
| SearchOrder.FreshOrder | my_engine/linear_reward.py:30-37 | before any update both strategies give the legal moves in enumeration order |
| Sorting.SortDesc | my_engine/linear_reward.py:33-35 | a permutation whose keys never increase |
| Sorting.SortDescStable | my_engine/linear_reward.py:33-35 | for every key value, the elements carrying it keep their original order |
| LinearReward.ScoreAddDecreasing | my_engine/linear_reward.py:5-6 | the reward 3000 - 150·place strictly decreases with the place |
| LinearReward.DefaultScore | my_engine/linear_reward.py:10-11 | an unseen move's prior is (2250, 1), average 2250 |
| LinearReward.UpdatedCounts | my_engine/linear_reward.py:23-27 | updating never lowers a stored count, and every credited move ends with at least two observations |
| LinearReward.UpdatedSnoc | my_engine/linear_reward.py:23-27 | crediting one more move of the list extends the previous update by that move at its place |
| LinearReward.UpdatedKeys | my_engine/linear_reward.py:23-27 | updating adds the credited moves to the keys and removes none |
| LinearReward.UpdatedElsewhere | my_engine/linear_reward.py:23-27 | a move not in the list keeps its prior and its presence |
| LinearReward.UpdatedAt | my_engine/linear_reward.py:23-27 | with distinct moves, the move at `place` gains score_add(place) on its prior's sum and 1 on its count |
| LinearReward.Ordered | my_engine/linear_reward.py:30-37 | a permutation of the legal moves with averages `sum // count` non-increasing |
| LinearReward.FreshOrderIsLegalOrder | my_engine/linear_reward.py:30-37 | with no priors every move averages 2250, so the order is the enumeration order |
| LinearReward.ThreeUpdatesAverages | my_engine/linear_reward.py:5-27 | after crediting three distinct unseen moves, their averages are 2625, 2550 and 2475, and any other unseen move stays at 2250 |
| LinearReward.ThreeUpdatesThenOrder | my_engine/linear_reward.py:23-37 | the next ordering ranks those three moves first, second and third, ahead of every other unseen move |
| LinearReward.LinearReward.constructor | my_engine/linear_reward.py:16-17 | the strategy starts with no priors |
| LinearReward.LinearReward.Prior | my_engine/linear_reward.py:19-21 | the stored prior, or (2250, 1) for an unseen move; it only reads the priors |
| LinearReward.LinearReward.UpdatePriors | my_engine/linear_reward.py:23-27 | the priors become the credited priors of the sorted list, place by place |
| LinearReward.LinearReward.OrderMoves | my_engine/linear_reward.py:30-37 | a permutation of the legal moves by non-increasing average, ties in legal-move order; the priors are only read |
| RandomOrder.OrderMoves | my_engine/random_order.py:11-12 | every legal move exactly once, in enumeration order |
| SearchOrder.SearchOrder.constructor | my_engine/engine.py:251-254 | a new strategy has an empty log and empty priors |
| SearchOrder.SearchOrder.OrderMoves | my_engine/search_order.py:10-12 | a permutation of the legal moves, the order the strategy's log determines: the prior-weighted order, or the enumeration order for the unordered strategy |
| SearchOrder.SearchOrder.UpdatePriors | my_engine/search_order.py:6-8 | the list is appended to the log and the priors stay its replay; the prior-weighted strategy credits it and the unordered strategy's state is unchanged |
| Uci.OptionLineJoin | my_engine/uci.py:21-22 | the option line is `option name <name> type <type> <rest>`, the fields joined by single spaces |
| Uci.OptionLineTokens | my_engine/uci.py:21-22 | cut at its spaces, the line reads `option`, `name`, the name's words, `type`, the type's words and the rest's words |
| Uci.OptionLinesText | my_engine/uci.py:26-28 | the three options print as Move Overhead, Threads and Hash spin lines with defaults 0, 1 and 1 |
| Uci.UciReply | my_engine/uci.py:92-96 | the `uci` reply is the two id lines, the three option lines and `uciok` |
| Uci.SplitJoin | my_engine/uci.py:63 | joining space-free tokens with single spaces and cutting at the spaces gives the tokens back |
| Uci.Drop | my_engine/uci.py:67 | the slice `[start:]`, empty once past the end |
| Uci.Slice | my_engine/uci.py:63 | the slice `[start:stop]` with both ends clamped to the length |
| Uci.KeywordsDisjoint | my_engine/uci.py:41-48 | flags, value keywords and `searchmoves` do not overlap |
| Uci.GoFields | my_engine/uci.py:37-53 | the recursive reading of the parameters: a success keeps every field already set; it fails only by reading past the end or with ValueError on a token of the command that is no known parameter |
| Uci.ParsedGo | my_engine/uci.py:30-55 | the reading after token 0: a command with fewer than two tokens never fails, and an unknown-parameter error names a token after `go` |
| Uci.ParseGo | my_engine/uci.py:30-55 | the index-driven loop computes exactly the recursive reading of the parameters after token 0, including its errors |
| Uci.ParseGoBare | my_engine/uci.py:31-37 | a command with no parameters gives no fields |
| Uci.GoFieldsClauses | my_engine/uci.py:37-51 | reading the tokens of well-formed clauses sets what the clauses say, in order |
| Uci.ParseGoClauses | my_engine/uci.py:30-55 | `go` followed by flags and keyword-value pairs gives exactly their assignments, flags mapped to "" |
| Uci.ParseGoSearchmoves | my_engine/uci.py:43-45 | `searchmoves` maps to every remaining token joined by single spaces and ends the parse |
| Uci.ParseGoMissingValue | my_engine/uci.py:46-51 | a value keyword as the last token reads past the end |
| Uci.ParseGoUnknown | my_engine/uci.py:52-53 | any other parameter token raises ValueError with that token, whatever follows |
| Uci.AssignLastWins | my_engine/uci.py:46-51 | a repeated parameter keeps the value of its last occurrence |
| Uci.AssignUnmentioned | my_engine/uci.py:41-51 | a key no clause mentions keeps its value |
| Uci.GoFieldsKeys | my_engine/uci.py:37-55 | a successful parse sets only known parameters |
| Uci.Push | my_engine/uci.py:68 | pushing a move keeps the setup and appends the move |
| Uci.PositionBoard | my_engine/uci.py:57-69 | fails exactly when the second token is missing (IndexError) or is neither `startpos` nor `fen` (AssertionError); `startpos` sets up the starting position; every move pushed is a token of the command |
| Uci.PositionResponse | my_engine/uci.py:57-69 | the loop pushes the move tokens one by one, giving exactly the board `PositionBoard` describes, or its exception |
| Uci.PositionStartpos | my_engine/uci.py:58-60 | `startpos` plays the tokens from index 3 on the starting position |
| Uci.PositionFen | my_engine/uci.py:61-68 | `fen` sets up tokens 2..7 joined by spaces, which read back field by field, and plays the tokens from index 9 |
| Uci.PositionErrors | my_engine/uci.py:57-62 | a command without a second token reads past the end; a second token other than `startpos` or `fen` fails the assertion |
| Uci.DynamicResponse | my_engine/uci.py:83-89 | succeeds exactly for a `position` whose setup succeeds or a `go` whose parse succeeds; its replies never quit, print nothing and log nothing; a search is handed the current board |
| Uci.CreateResponse | my_engine/uci.py:91-104 | only `quit` replies with quit set; no reply logs; every reply but `position`'s keeps the board; only the six known commands succeed |
| Uci.FixedReplies | my_engine/uci.py:91-102 | `uci`, `isready`, `ucinewgame` and `quit` keep the board and log nothing; only `quit` stops; each prints its fixed lines |
| Uci.PositionCommand | my_engine/uci.py:84-85 | `position` replaces the board and prints nothing, or raises what the setup raises |
| Uci.GoCommand | my_engine/uci.py:86-87 | `go` hands the parsed fields and the board to the search, or raises what the parse raises |
| Uci.UnknownCommand | my_engine/uci.py:83-89 | an empty line reads past the end; any other command raises ValueError with its tokens |

## Left out

- The quit-early heuristic (`quit_early.py`) is floating point with square roots. Its verdict is a field of each game-tree node.
- The rules engine (python-chess) is abstracted:
  - legal-move generation, `is_capture`, `is_checkmate`, `is_stalemate` and `fen` become fields of the game tree, and `push`/`pop` become `GameTree.Board`;
  - in `Uci`, a board is its setup plus the move strings pushed;
  - FEN validation and move-string legality are not modelled, and neither are the exceptions they raise.
- In `PieceSquare`, a board is its list of placed pieces. The capture and en-passant flags of `Diff` are parameters.
- `Stats` and every `stats.*` update are instrumentation and are not modelled. One of them changes behaviour: `stats.moves_at_depth` has 20 slots (engine.py:28-30) and engine.py:199 indexes it by the distance from the root, so expanding a node at distance 20 or more raises IndexError. The model expands such a node normally. The `best_move` variable, written but never read, is not modelled either.
- The test `best_moves is []` is always false, so its `ValueError` branch is dead and not modelled.
- `eval.py` is not part of this model. The static score of a leaf is each node's `score` field.
- `go_response`:
  - it is not modelled: it uses floating point, unpacks `engine.go`'s single result into two names, and calls `engine.best_move_of_eval`, which does not exist;
  - `Uci.DynamicResponse` returns the parsed fields and the board for the search instead.
- `main` in `uci.py`, `main.py` and `perf.py` are stdin, file and command-line I/O.
- The search-order interface is abstract in the source. Here it is a class `SearchOrder.SearchOrder` whose `linear` flag chooses between the two strategies.
- Floats are modelled as exact reals, so IEEE rounding is not modelled. Scores and the phase are `real`, and sums are taken in board order.
- Each piece-square table is a function from index to entry holding the source's 64 values.
- Commands arrive already cut into tokens. `Uci.Split` models Python's `split(" ")` only to state round trips.
- Engine.Search.CalcBestMove: terminates because the game tree is finite (its height bounds the recursion). Along a line of positions with one legal move each the budget stays at `1 // 1 = 1`, so the source only stops at distance 20, with the IndexError above.
- Engine.Search.CalcBestMove: requires that a non-root call has a positive budget. Every recursive call meets this, since only children with a positive budget are searched. It rules out scoring an empty `OK` list, which would raise IndexError in the source.
- PieceSquare.DiffCapturePhase: for a capture, the phase change (`DiffCaptureIsPhaseChange`) and the errors of `diff` are proved, but its score change is not related to the evaluations of the boards before and after. `diff` blends only the moved and the captured pieces' values at the new phase; when the capture moves the phase, the pieces that stay are re-blended too, and `diff` leaves that term out. The pawn-takes-pawn case, where the phase does not move, is not proved either: its proof unfolds the piece-square tables for three pieces at once and exceeds the solver budget.
- RandomOrder.UpdatePriors: has no effect and no state to speak of, so it carries no contract.
