/**
  The rules engine as the search sees it: a finite game tree whose nodes carry
  the side to move, the legal moves (each with its capture flag and resulting
  position), the checkmate and stalemate flags, the early-termination verdict,
  the static score and the position key. A `Board` walks this tree through a
  stack of played moves that is pushed and popped.
*/
module GameTree {
  import opened Chess

  /** The position key (the rules engine's FEN string) as an opaque number. */
  type Key = nat

  datatype Node = Node(
    turn: Color,
    edges: seq<Edge>,
    checkmate: bool,
    stalemate: bool,
    quitEarly: bool,  // the early-termination heuristic's verdict for this node
    score: real,      // the static evaluation of this position
    key: Key)

  datatype Edge = Edge(move: Move, capture: bool, child: Node)

  /** The legal moves of a node, in the rules engine's enumeration order. */
  function Moves(n: Node): (ms: seq<Move>)
    ensures |ms| == |n.edges|
    ensures forall i :: 0 <= i < |ms| ==> ms[i] == n.edges[i].move
  {
    seq(|n.edges|, i requires 0 <= i < |n.edges| => n.edges[i].move)
  }

  /** A position the rules engine can produce: legal moves are distinct, and a node
      without legal moves is exactly one that is checkmate or stalemate. */
  ghost predicate WellFormed(n: Node)
    decreases n
  {
    && (forall i, j :: 0 <= i < j < |n.edges| ==> n.edges[i].move != n.edges[j].move)
    && ((n.checkmate || n.stalemate) <==> n.edges == [])
    && (forall i :: 0 <= i < |n.edges| ==> WellFormed(n.edges[i].child))
  }

  /** The index of the edge that plays `m`. */
  function EdgeIndex(n: Node, m: Move): (i: nat)
    requires m in Moves(n)
    ensures i < |n.edges| && n.edges[i].move == m
  {
    FirstIndex(Moves(n), m)
  }

  function FirstIndex(ms: seq<Move>, m: Move): (i: nat)
    requires m in ms
    ensures i < |ms| && ms[i] == m
  {
    if ms[0] == m then 0 else 1 + FirstIndex(ms[1..], m)
  }

  function Child(n: Node, m: Move): Node
    requires m in Moves(n)
  {
    n.edges[EdgeIndex(n, m)].child
  }

  function IsCapture(n: Node, m: Move): bool
    requires m in Moves(n)
  {
    n.edges[EdgeIndex(n, m)].capture
  }

  /** Length of the longest line from `n` (a node without moves has height 1). */
  function Height(n: Node): (h: nat)
    ensures h >= 1
    decreases n
  {
    1 + MaxChildHeight(n, |n.edges|)
  }

  function MaxChildHeight(n: Node, k: nat): (h: nat)
    requires k <= |n.edges|
    ensures forall i :: 0 <= i < k ==> Height(n.edges[i].child) <= h
    decreases n, k
  {
    if k == 0 then 0
    else
      var a := Height(n.edges[k - 1].child);
      var b := MaxChildHeight(n, k - 1);
      if a < b then b else a
  }

  lemma ChildLower(n: Node, m: Move)
    requires m in Moves(n)
    ensures Height(Child(n, m)) < Height(n)
  {
    assert Height(n.edges[EdgeIndex(n, m)].child) <= MaxChildHeight(n, |n.edges|);
  }

  /** `path` is a sequence of legal moves played from `n`. */
  ghost predicate IsPath(n: Node, path: seq<Move>)
    decreases |path|, 0
  {
    path == [] || (IsPath(n, path[..|path| - 1]) && path[|path| - 1] in Moves(At(n, path[..|path| - 1])))
  }

  /** The node reached from `n` by playing `path`. */
  function At(n: Node, path: seq<Move>): Node
    requires IsPath(n, path)
    decreases |path|, 1
  {
    if path == [] then n else Child(At(n, path[..|path| - 1]), path[|path| - 1])
  }

  lemma {:induction false} WellFormedAt(n: Node, path: seq<Move>)
    requires WellFormed(n) && IsPath(n, path)
    ensures WellFormed(At(n, path))
    decreases |path|
  {
    if path != [] {
      WellFormedAt(n, path[..|path| - 1]);
    }
  }

  /** The rules engine's board: a root position and the stack of moves played on it. */
  class Board {
    const root: Node
    var stack: seq<Move>

    ghost predicate Valid()
      reads this
    {
      WellFormed(root) && IsPath(root, stack)
    }

    /** The position on the board. */
    function Current(): (n: Node)
      reads this
      requires Valid()
      ensures WellFormed(n)
    {
      WellFormedAt(root, stack);
      At(root, stack)
    }

    constructor (start: Node)
      requires WellFormed(start)
      ensures Valid() && root == start && stack == []
    {
      root := start;
      stack := [];
    }

    /** Plays a legal move. */
    method Push(m: Move)
      requires Valid() && m in Moves(Current())
      modifies this
      ensures Valid() && stack == old(stack) + [m]
      ensures Current() == Child(old(Current()), m)
    {
      stack := stack + [m];
      assert stack[..|stack| - 1] == old(stack);
    }

    /** Takes back the last move played. */
    method Pop()
      requires Valid() && stack != []
      modifies this
      ensures Valid() && stack == old(stack)[..|old(stack)| - 1]
    {
      stack := stack[..|stack| - 1];
    }
  }
}
