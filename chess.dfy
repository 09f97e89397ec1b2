/**
  The few notions of the rules engine that the engine's own code uses:
  colours, piece types, squares numbered 0..63 (a1 = 0, h8 = 63) and moves.
  Legal-move generation and the other rules are not part of this model.
*/
module Chess {
  import opened Wrappers

  datatype Color = White | Black

  function Opponent(c: Color): Color
  {
    if c == White then Black else White
  }

  datatype PieceType = Pawn | Knight | Bishop | Rook | Queen | King

  datatype Piece = Piece(kind: PieceType, color: Color)

  type Square = sq: int | 0 <= sq < 64

  /** Rank 0..7 of a square (0 is White's back rank). */
  function Rank(sq: Square): int
  {
    sq / 8
  }

  /** File 0..7 of a square (0 is the a-file). */
  function File(sq: Square): int
  {
    sq % 8
  }

  /** The square on a given file and rank. */
  function SquareAt(file: int, rank: int): (sq: Square)
    requires 0 <= file < 8 && 0 <= rank < 8
    ensures File(sq) == file && Rank(sq) == rank
  {
    rank * 8 + file
  }

  /** The square reflected across the board's horizontal midline (the rules engine computes it as sq XOR 56). */
  function Mirror(sq: Square): (m: Square)
    ensures Rank(m) == 7 - Rank(sq) && File(m) == File(sq)
  {
    (7 - Rank(sq)) * 8 + File(sq)
  }

  lemma MirrorInvolution(sq: Square)
    ensures Mirror(Mirror(sq)) == sq
  {
  }

  /** A move: origin, destination and the piece type a pawn promotes to. */
  datatype Move = Move(from: Square, to: Square, promotion: Option<PieceType>)
}
