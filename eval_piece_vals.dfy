/**
  The PeSTO piece-square evaluation. Every piece has a midgame and an endgame value,
  a base value for its type plus a table entry for its square; Black's values are
  White's at the mirrored square, negated. The game phase is the material weight on
  the board over 24, and a piece's value is the blend of its two values by that phase.
  `Diff` computes the change of the evaluation made by one move without rescanning
  the board.
*/
module PieceSquare {
  import opened Wrappers
  import opened Chess

  function MgBaseValue(k: PieceType): int
  {
    match k
    case Pawn => 82
    case Knight => 337
    case Bishop => 365
    case Rook => 477
    case Queen => 1025
    case King => 0
  }

  function EgBaseValue(k: PieceType): int
  {
    match k
    case Pawn => 94
    case Knight => 281
    case Bishop => 297
    case Rook => 512
    case Queen => 936
    case King => 0
  }

  /** An index into a 64-entry piece-square table (the last case of each table below
      is entry 63). */
  type TableEntry = i: int | 0 <= i < 64

  function MgPawnTable(i: TableEntry): int
  {
    match i
    case  0 =>    0  case  1 =>    0  case  2 =>    0  case  3 =>    0  case  4 =>    0  case  5 =>    0  case  6 =>    0  case  7 =>    0
    case  8 =>   98  case  9 =>  134  case 10 =>   61  case 11 =>   95  case 12 =>   68  case 13 =>  126  case 14 =>   34  case 15 =>  -11
    case 16 =>   -6  case 17 =>    7  case 18 =>   26  case 19 =>   31  case 20 =>   65  case 21 =>   56  case 22 =>   25  case 23 =>  -20
    case 24 =>  -14  case 25 =>   13  case 26 =>    6  case 27 =>   21  case 28 =>   23  case 29 =>   12  case 30 =>   17  case 31 =>  -23
    case 32 =>  -27  case 33 =>   -2  case 34 =>   -5  case 35 =>   12  case 36 =>   17  case 37 =>    6  case 38 =>   10  case 39 =>  -25
    case 40 =>  -26  case 41 =>   -4  case 42 =>   -4  case 43 =>  -10  case 44 =>    3  case 45 =>    3  case 46 =>   33  case 47 =>  -12
    case 48 =>  -35  case 49 =>   -1  case 50 =>  -20  case 51 =>  -23  case 52 =>  -15  case 53 =>   24  case 54 =>   38  case 55 =>  -22
    case 56 =>    0  case 57 =>    0  case 58 =>    0  case 59 =>    0  case 60 =>    0  case 61 =>    0  case 62 =>    0  case  _ =>    0
  }

  function EgPawnTable(i: TableEntry): int
  {
    match i
    case  0 =>    0  case  1 =>    0  case  2 =>    0  case  3 =>    0  case  4 =>    0  case  5 =>    0  case  6 =>    0  case  7 =>    0
    case  8 =>  178  case  9 =>  173  case 10 =>  158  case 11 =>  134  case 12 =>  147  case 13 =>  132  case 14 =>  165  case 15 =>  187
    case 16 =>   94  case 17 =>  100  case 18 =>   85  case 19 =>   67  case 20 =>   56  case 21 =>   53  case 22 =>   82  case 23 =>   84
    case 24 =>   32  case 25 =>   24  case 26 =>   13  case 27 =>    5  case 28 =>   -2  case 29 =>    4  case 30 =>   17  case 31 =>   17
    case 32 =>   13  case 33 =>    9  case 34 =>   -3  case 35 =>   -7  case 36 =>   -7  case 37 =>   -8  case 38 =>    3  case 39 =>   -1
    case 40 =>    4  case 41 =>    7  case 42 =>   -6  case 43 =>    1  case 44 =>    0  case 45 =>   -5  case 46 =>   -1  case 47 =>   -8
    case 48 =>   13  case 49 =>    8  case 50 =>    8  case 51 =>   10  case 52 =>   13  case 53 =>    0  case 54 =>    2  case 55 =>   -7
    case 56 =>    0  case 57 =>    0  case 58 =>    0  case 59 =>    0  case 60 =>    0  case 61 =>    0  case 62 =>    0  case  _ =>    0
  }

  function MgKnightTable(i: TableEntry): int
  {
    match i
    case  0 => -167  case  1 =>  -89  case  2 =>  -34  case  3 =>  -49  case  4 =>   61  case  5 =>  -97  case  6 =>  -15  case  7 => -107
    case  8 =>  -73  case  9 =>  -41  case 10 =>   72  case 11 =>   36  case 12 =>   23  case 13 =>   62  case 14 =>    7  case 15 =>  -17
    case 16 =>  -47  case 17 =>   60  case 18 =>   37  case 19 =>   65  case 20 =>   84  case 21 =>  129  case 22 =>   73  case 23 =>   44
    case 24 =>   -9  case 25 =>   17  case 26 =>   19  case 27 =>   53  case 28 =>   37  case 29 =>   69  case 30 =>   18  case 31 =>   22
    case 32 =>  -13  case 33 =>    4  case 34 =>   16  case 35 =>   13  case 36 =>   28  case 37 =>   19  case 38 =>   21  case 39 =>   -8
    case 40 =>  -23  case 41 =>   -9  case 42 =>   12  case 43 =>   10  case 44 =>   19  case 45 =>   17  case 46 =>   25  case 47 =>  -16
    case 48 =>  -29  case 49 =>  -53  case 50 =>  -12  case 51 =>   -3  case 52 =>   -1  case 53 =>   18  case 54 =>  -14  case 55 =>  -19
    case 56 => -105  case 57 =>  -21  case 58 =>  -58  case 59 =>  -33  case 60 =>  -17  case 61 =>  -28  case 62 =>  -19  case  _ =>  -23
  }

  function EgKnightTable(i: TableEntry): int
  {
    match i
    case  0 =>  -58  case  1 =>  -38  case  2 =>  -13  case  3 =>  -28  case  4 =>  -31  case  5 =>  -27  case  6 =>  -63  case  7 =>  -99
    case  8 =>  -25  case  9 =>   -8  case 10 =>  -25  case 11 =>   -2  case 12 =>   -9  case 13 =>  -25  case 14 =>  -24  case 15 =>  -52
    case 16 =>  -24  case 17 =>  -20  case 18 =>   10  case 19 =>    9  case 20 =>   -1  case 21 =>   -9  case 22 =>  -19  case 23 =>  -41
    case 24 =>  -17  case 25 =>    3  case 26 =>   22  case 27 =>   22  case 28 =>   22  case 29 =>   11  case 30 =>    8  case 31 =>  -18
    case 32 =>  -18  case 33 =>   -6  case 34 =>   16  case 35 =>   25  case 36 =>   16  case 37 =>   17  case 38 =>    4  case 39 =>  -18
    case 40 =>  -23  case 41 =>   -3  case 42 =>   -1  case 43 =>   15  case 44 =>   10  case 45 =>   -3  case 46 =>  -20  case 47 =>  -22
    case 48 =>  -42  case 49 =>  -20  case 50 =>  -10  case 51 =>   -5  case 52 =>   -2  case 53 =>  -20  case 54 =>  -23  case 55 =>  -44
    case 56 =>  -29  case 57 =>  -51  case 58 =>  -23  case 59 =>  -15  case 60 =>  -22  case 61 =>  -18  case 62 =>  -50  case  _ =>  -64
  }

  function MgBishopTable(i: TableEntry): int
  {
    match i
    case  0 =>  -29  case  1 =>    4  case  2 =>  -82  case  3 =>  -37  case  4 =>  -25  case  5 =>  -42  case  6 =>    7  case  7 =>   -8
    case  8 =>  -26  case  9 =>   16  case 10 =>  -18  case 11 =>  -13  case 12 =>   30  case 13 =>   59  case 14 =>   18  case 15 =>  -47
    case 16 =>  -16  case 17 =>   37  case 18 =>   43  case 19 =>   40  case 20 =>   35  case 21 =>   50  case 22 =>   37  case 23 =>   -2
    case 24 =>   -4  case 25 =>    5  case 26 =>   19  case 27 =>   50  case 28 =>   37  case 29 =>   37  case 30 =>    7  case 31 =>   -2
    case 32 =>   -6  case 33 =>   13  case 34 =>   13  case 35 =>   26  case 36 =>   34  case 37 =>   12  case 38 =>   10  case 39 =>    4
    case 40 =>    0  case 41 =>   15  case 42 =>   15  case 43 =>   15  case 44 =>   14  case 45 =>   27  case 46 =>   18  case 47 =>   10
    case 48 =>    4  case 49 =>   15  case 50 =>   16  case 51 =>    0  case 52 =>    7  case 53 =>   21  case 54 =>   33  case 55 =>    1
    case 56 =>  -33  case 57 =>   -3  case 58 =>  -14  case 59 =>  -21  case 60 =>  -13  case 61 =>  -12  case 62 =>  -39  case  _ =>  -21
  }

  function EgBishopTable(i: TableEntry): int
  {
    match i
    case  0 =>  -14  case  1 =>  -21  case  2 =>  -11  case  3 =>   -8  case  4 =>   -7  case  5 =>   -9  case  6 =>  -17  case  7 =>  -24
    case  8 =>   -8  case  9 =>   -4  case 10 =>    7  case 11 =>  -12  case 12 =>   -3  case 13 =>  -13  case 14 =>   -4  case 15 =>  -14
    case 16 =>    2  case 17 =>   -8  case 18 =>    0  case 19 =>   -1  case 20 =>   -2  case 21 =>    6  case 22 =>    0  case 23 =>    4
    case 24 =>   -3  case 25 =>    9  case 26 =>   12  case 27 =>    9  case 28 =>   14  case 29 =>   10  case 30 =>    3  case 31 =>    2
    case 32 =>   -6  case 33 =>    3  case 34 =>   13  case 35 =>   19  case 36 =>    7  case 37 =>   10  case 38 =>   -3  case 39 =>   -9
    case 40 =>  -12  case 41 =>   -3  case 42 =>    8  case 43 =>   10  case 44 =>   13  case 45 =>    3  case 46 =>   -7  case 47 =>  -15
    case 48 =>  -14  case 49 =>  -18  case 50 =>   -7  case 51 =>   -1  case 52 =>    4  case 53 =>   -9  case 54 =>  -15  case 55 =>  -27
    case 56 =>  -23  case 57 =>   -9  case 58 =>  -23  case 59 =>   -5  case 60 =>   -9  case 61 =>  -16  case 62 =>   -5  case  _ =>  -17
  }

  function MgRookTable(i: TableEntry): int
  {
    match i
    case  0 =>   32  case  1 =>   42  case  2 =>   32  case  3 =>   51  case  4 =>   63  case  5 =>    9  case  6 =>   31  case  7 =>   43
    case  8 =>   27  case  9 =>   32  case 10 =>   58  case 11 =>   62  case 12 =>   80  case 13 =>   67  case 14 =>   26  case 15 =>   44
    case 16 =>   -5  case 17 =>   19  case 18 =>   26  case 19 =>   36  case 20 =>   17  case 21 =>   45  case 22 =>   61  case 23 =>   16
    case 24 =>  -24  case 25 =>  -11  case 26 =>    7  case 27 =>   26  case 28 =>   24  case 29 =>   35  case 30 =>   -8  case 31 =>  -20
    case 32 =>  -36  case 33 =>  -26  case 34 =>  -12  case 35 =>   -1  case 36 =>    9  case 37 =>   -7  case 38 =>    6  case 39 =>  -23
    case 40 =>  -45  case 41 =>  -25  case 42 =>  -16  case 43 =>  -17  case 44 =>    3  case 45 =>    0  case 46 =>   -5  case 47 =>  -33
    case 48 =>  -44  case 49 =>  -16  case 50 =>  -20  case 51 =>   -9  case 52 =>   -1  case 53 =>   11  case 54 =>   -6  case 55 =>  -71
    case 56 =>  -19  case 57 =>  -13  case 58 =>    1  case 59 =>   17  case 60 =>   16  case 61 =>    7  case 62 =>  -37  case  _ =>  -26
  }

  function EgRookTable(i: TableEntry): int
  {
    match i
    case  0 =>   13  case  1 =>   10  case  2 =>   18  case  3 =>   15  case  4 =>   12  case  5 =>   12  case  6 =>    8  case  7 =>    5
    case  8 =>   11  case  9 =>   13  case 10 =>   13  case 11 =>   11  case 12 =>   -3  case 13 =>    3  case 14 =>    8  case 15 =>    3
    case 16 =>    7  case 17 =>    7  case 18 =>    7  case 19 =>    5  case 20 =>    4  case 21 =>   -3  case 22 =>   -5  case 23 =>   -3
    case 24 =>    4  case 25 =>    3  case 26 =>   13  case 27 =>    1  case 28 =>    2  case 29 =>    1  case 30 =>   -1  case 31 =>    2
    case 32 =>    3  case 33 =>    5  case 34 =>    8  case 35 =>    4  case 36 =>   -5  case 37 =>   -6  case 38 =>   -8  case 39 =>  -11
    case 40 =>   -4  case 41 =>    0  case 42 =>   -5  case 43 =>   -1  case 44 =>   -7  case 45 =>  -12  case 46 =>   -8  case 47 =>  -16
    case 48 =>   -6  case 49 =>   -6  case 50 =>    0  case 51 =>    2  case 52 =>   -9  case 53 =>   -9  case 54 =>  -11  case 55 =>   -3
    case 56 =>   -9  case 57 =>    2  case 58 =>    3  case 59 =>   -1  case 60 =>   -5  case 61 =>  -13  case 62 =>    4  case  _ =>  -20
  }

  function MgQueenTable(i: TableEntry): int
  {
    match i
    case  0 =>  -28  case  1 =>    0  case  2 =>   29  case  3 =>   12  case  4 =>   59  case  5 =>   44  case  6 =>   43  case  7 =>   45
    case  8 =>  -24  case  9 =>  -39  case 10 =>   -5  case 11 =>    1  case 12 =>  -16  case 13 =>   57  case 14 =>   28  case 15 =>   54
    case 16 =>  -13  case 17 =>  -17  case 18 =>    7  case 19 =>    8  case 20 =>   29  case 21 =>   56  case 22 =>   47  case 23 =>   57
    case 24 =>  -27  case 25 =>  -27  case 26 =>  -16  case 27 =>  -16  case 28 =>   -1  case 29 =>   17  case 30 =>   -2  case 31 =>    1
    case 32 =>   -9  case 33 =>  -26  case 34 =>   -9  case 35 =>  -10  case 36 =>   -2  case 37 =>   -4  case 38 =>    3  case 39 =>   -3
    case 40 =>  -14  case 41 =>    2  case 42 =>  -11  case 43 =>   -2  case 44 =>   -5  case 45 =>    2  case 46 =>   14  case 47 =>    5
    case 48 =>  -35  case 49 =>   -8  case 50 =>   11  case 51 =>    2  case 52 =>    8  case 53 =>   15  case 54 =>   -3  case 55 =>    1
    case 56 =>   -1  case 57 =>  -18  case 58 =>   -9  case 59 =>   10  case 60 =>  -15  case 61 =>  -25  case 62 =>  -31  case  _ =>  -50
  }

  function EgQueenTable(i: TableEntry): int
  {
    match i
    case  0 =>   -9  case  1 =>   22  case  2 =>   22  case  3 =>   27  case  4 =>   27  case  5 =>   19  case  6 =>   10  case  7 =>   20
    case  8 =>  -17  case  9 =>   20  case 10 =>   32  case 11 =>   41  case 12 =>   58  case 13 =>   25  case 14 =>   30  case 15 =>    0
    case 16 =>  -20  case 17 =>    6  case 18 =>    9  case 19 =>   49  case 20 =>   47  case 21 =>   35  case 22 =>   19  case 23 =>    9
    case 24 =>    3  case 25 =>   22  case 26 =>   24  case 27 =>   45  case 28 =>   57  case 29 =>   40  case 30 =>   57  case 31 =>   36
    case 32 =>  -18  case 33 =>   28  case 34 =>   19  case 35 =>   47  case 36 =>   31  case 37 =>   34  case 38 =>   39  case 39 =>   23
    case 40 =>  -16  case 41 =>  -27  case 42 =>   15  case 43 =>    6  case 44 =>    9  case 45 =>   17  case 46 =>   10  case 47 =>    5
    case 48 =>  -22  case 49 =>  -23  case 50 =>  -30  case 51 =>  -16  case 52 =>  -16  case 53 =>  -23  case 54 =>  -36  case 55 =>  -32
    case 56 =>  -33  case 57 =>  -28  case 58 =>  -22  case 59 =>  -43  case 60 =>   -5  case 61 =>  -32  case 62 =>  -20  case  _ =>  -41
  }

  function MgKingTable(i: TableEntry): int
  {
    match i
    case  0 =>  -65  case  1 =>   23  case  2 =>   16  case  3 =>  -15  case  4 =>  -56  case  5 =>  -34  case  6 =>    2  case  7 =>   13
    case  8 =>   29  case  9 =>   -1  case 10 =>  -20  case 11 =>   -7  case 12 =>   -8  case 13 =>   -4  case 14 =>  -38  case 15 =>  -29
    case 16 =>   -9  case 17 =>   24  case 18 =>    2  case 19 =>  -16  case 20 =>  -20  case 21 =>    6  case 22 =>   22  case 23 =>  -22
    case 24 =>  -17  case 25 =>  -20  case 26 =>  -12  case 27 =>  -27  case 28 =>  -30  case 29 =>  -25  case 30 =>  -14  case 31 =>  -36
    case 32 =>  -49  case 33 =>   -1  case 34 =>  -27  case 35 =>  -39  case 36 =>  -46  case 37 =>  -44  case 38 =>  -33  case 39 =>  -51
    case 40 =>  -14  case 41 =>  -14  case 42 =>  -22  case 43 =>  -46  case 44 =>  -44  case 45 =>  -30  case 46 =>  -15  case 47 =>  -27
    case 48 =>    1  case 49 =>    7  case 50 =>   -8  case 51 =>  -64  case 52 =>  -43  case 53 =>  -16  case 54 =>    9  case 55 =>    8
    case 56 =>  -15  case 57 =>   36  case 58 =>   12  case 59 =>  -54  case 60 =>    8  case 61 =>  -28  case 62 =>   24  case  _ =>   14
  }

  function EgKingTable(i: TableEntry): int
  {
    match i
    case  0 =>  -74  case  1 =>  -35  case  2 =>  -18  case  3 =>  -18  case  4 =>  -11  case  5 =>   15  case  6 =>    4  case  7 =>  -17
    case  8 =>  -12  case  9 =>   17  case 10 =>   14  case 11 =>   17  case 12 =>   17  case 13 =>   38  case 14 =>   23  case 15 =>   11
    case 16 =>   10  case 17 =>   17  case 18 =>   23  case 19 =>   15  case 20 =>   20  case 21 =>   45  case 22 =>   44  case 23 =>   13
    case 24 =>   -8  case 25 =>   22  case 26 =>   24  case 27 =>   27  case 28 =>   26  case 29 =>   33  case 30 =>   26  case 31 =>    3
    case 32 =>  -18  case 33 =>   -4  case 34 =>   21  case 35 =>   24  case 36 =>   27  case 37 =>   23  case 38 =>    9  case 39 =>  -11
    case 40 =>  -19  case 41 =>   -3  case 42 =>   11  case 43 =>   21  case 44 =>   23  case 45 =>   16  case 46 =>    7  case 47 =>   -9
    case 48 =>  -27  case 49 =>  -11  case 50 =>    4  case 51 =>   13  case 52 =>   14  case 53 =>    4  case 54 =>   -5  case 55 =>  -17
    case 56 =>  -53  case 57 =>  -34  case 58 =>  -21  case 59 =>  -11  case 60 =>  -28  case 61 =>  -14  case 62 =>  -24  case  _ =>  -43
  }

  function MgTable(k: PieceType, i: TableEntry): int
  {
    match k
    case Pawn => MgPawnTable(i)
    case Knight => MgKnightTable(i)
    case Bishop => MgBishopTable(i)
    case Rook => MgRookTable(i)
    case Queen => MgQueenTable(i)
    case King => MgKingTable(i)
  }

  function EgTable(k: PieceType, i: TableEntry): int
  {
    match k
    case Pawn => EgPawnTable(i)
    case Knight => EgKnightTable(i)
    case Bishop => EgBishopTable(i)
    case Rook => EgRookTable(i)
    case Queen => EgQueenTable(i)
    case King => EgKingTable(i)
  }

  /** The table index as the evaluator computes it: `(7 - rank) + file`, without
      multiplying the rank by 8, so only entries 0..14 are ever read. */
  function TableIndex(sq: Square): (i: int)
    ensures 0 <= i <= 14
    ensures i == (7 - Rank(sq)) + File(sq)
  {
    (7 - sq / 8) + sq % 8
  }

  /** Distinct squares on the same diagonal share an index: a1 and b2 both read entry 7. */
  lemma TableIndexCollision(k: PieceType)
    ensures TableIndex(SquareAt(0, 0)) == TableIndex(SquareAt(1, 1)) == 7
    ensures WhiteValues(k, SquareAt(0, 0)) == WhiteValues(k, SquareAt(1, 1))
  {
  }

  /** The (midgame, endgame) values of a white piece of type k on a square. */
  function WhiteValues(k: PieceType, sq: Square): (int, int)
  {
    var position := TableIndex(sq);
    (MgBaseValue(k) + MgTable(k, position), EgBaseValue(k) + EgTable(k, position))
  }

  function Negated(v: (int, int)): (int, int)
  {
    (-v.0, -v.1)
  }

  /** The (midgame, endgame) values of a piece on a square; Black's are White's at the
      mirrored square, negated. */
  function PieceValues(sq: Square, piece: Piece): (r: (int, int))
    ensures piece.color == White ==> r == WhiteValues(piece.kind, sq)
    ensures piece.color == Black ==> r == Negated(WhiteValues(piece.kind, Mirror(sq)))
  {
    // Black reads the mirrored square and multiplies both values by -1
    if piece.color == Black then Negated(WhiteValues(piece.kind, Mirror(sq)))
    else WhiteValues(piece.kind, sq)
  }

  /** A piece's values are the negation of those of the opposite-coloured piece on the
      mirrored square. */
  lemma ColourFlip(sq: Square, piece: Piece)
    ensures PieceValues(Mirror(sq), Piece(piece.kind, Opponent(piece.color))) == Negated(PieceValues(sq, piece))
  {
    MirrorInvolution(sq);
  }

  /** The midgame/endgame blend: `mg` weighted by the ratio plus `eg` weighted by its
      complement. It is `mg` at ratio 1, `eg` at ratio 0, and in between for ratios
      in between. */
  function Mix(mg: real, eg: real, ratio: real): (v: real)
    ensures ratio == 1.0 ==> v == mg
    ensures ratio == 0.0 ==> v == eg
    ensures 0.0 <= ratio <= 1.0 ==> (mg <= v <= eg) || (eg <= v <= mg)
  {
    var v := (mg * ratio) + (eg * (1.0 - ratio));
    assert 0.0 <= ratio <= 1.0 ==> (mg <= v <= eg) || (eg <= v <= mg) by {
      if 0.0 <= ratio <= 1.0 {
        Between(mg, eg, ratio, v);
      }
    }
    v
  }

  lemma Between(mg: real, eg: real, ratio: real, v: real)
    requires 0.0 <= ratio <= 1.0
    requires v == (mg * ratio) + (eg * (1.0 - ratio))
    ensures (mg <= v <= eg) || (eg <= v <= mg)
  {
    var d := mg - eg;
    assert v == eg + d * ratio;
    assert mg - v == d * (1.0 - ratio);
    if d >= 0.0 {
      MulNonNegative(d, ratio);
      MulNonNegative(d, 1.0 - ratio);
    } else {
      MulNonNegative(-d, ratio);
      MulNonNegative(-d, 1.0 - ratio);
    }
  }

  /** Blending is linear in the two values. */
  lemma MixAdd(a: real, b: real, c: real, d: real, e: real, f: real, ratio: real)
    requires a + c == e && b + d == f
    ensures Mix(a, b, ratio) + Mix(c, d, ratio) == Mix(e, f, ratio)
  {
  }

  lemma MixSub(a: real, b: real, c: real, d: real, e: real, f: real, ratio: real)
    requires a - c == e && b - d == f
    ensures Mix(a, b, ratio) - Mix(c, d, ratio) == Mix(e, f, ratio)
  {
  }

  lemma MixCong(a: real, b: real, r: real, c: real, d: real, t: real)
    requires a == c && b == d && r == t
    ensures Mix(a, b, r) == Mix(c, d, t)
  {
  }

  lemma MixNeg(a: real, b: real, c: real, d: real, ratio: real)
    requires c == -a && d == -b
    ensures Mix(c, d, ratio) == -Mix(a, b, ratio)
  {
  }

  /** A piece's value at a midgame/endgame ratio. */
  function PieceValue(sq: Square, piece: Piece, ratio: real): (v: real)
    ensures ratio == 1.0 ==> v == PieceValues(sq, piece).0 as real
    ensures ratio == 0.0 ==> v == PieceValues(sq, piece).1 as real
    ensures 0.0 <= ratio <= 1.0 ==>
              var (mg, eg) := PieceValues(sq, piece);
              (mg as real <= v <= eg as real) || (eg as real <= v <= mg as real)
  {
    Mix(PieceValues(sq, piece).0 as real, PieceValues(sq, piece).1 as real, ratio)
  }

  lemma MulNonNegative(a: real, b: real)
    requires a >= 0.0 && b >= 0.0
    ensures a * b >= 0.0
  {
  }

  /** The phase weight of a piece type. */
  function PhaseWeight(k: PieceType): int
  {
    match k
    case Pawn => 0
    case Knight => 1
    case Bishop => 1
    case Rook => 2
    case Queen => 4
    case King => 0
  }

  // ---------------------------------------------------------------------------
  // The board's pieces

  /** One entry of the board's piece map. */
  datatype Placement = Placement(square: Square, piece: Piece)

  /** A piece map: no square holds two pieces. */
  ghost predicate DistinctSquares(pieces: seq<Placement>)
  {
    forall i, j :: 0 <= i < j < |pieces| ==> pieces[i].square != pieces[j].square
  }

  /** The piece on a square, if any. */
  function PieceAt(pieces: seq<Placement>, sq: Square): Option<Piece>
  {
    if pieces == [] then None
    else if pieces[0].square == sq then Some(pieces[0].piece)
    else PieceAt(pieces[1..], sq)
  }

  /** The lookup finds nothing exactly when no placement is on the square, and what it
      finds is a placement on the square. */
  lemma {:induction false} PieceAtFound(pieces: seq<Placement>, sq: Square)
    ensures PieceAt(pieces, sq).None? <==> forall i :: 0 <= i < |pieces| ==> pieces[i].square != sq
    ensures PieceAt(pieces, sq).Some? ==>
              exists i :: 0 <= i < |pieces| && pieces[i] == Placement(sq, PieceAt(pieces, sq).value)
    decreases |pieces|
  {
    if pieces != [] && pieces[0].square != sq {
      var r := PieceAt(pieces[1..], sq);
      PieceAtFound(pieces[1..], sq);
      if r.Some? {
        var i :| 0 <= i < |pieces| - 1 && pieces[1..][i] == Placement(sq, r.value);
        assert pieces[i + 1] == pieces[1..][i];
      } else {
        forall i | 0 <= i < |pieces|
          ensures pieces[i].square != sq
        {
          if i > 0 {
            assert pieces[i] == pieces[1..][i - 1];
          }
        }
      }
    }
  }

  /** In a piece map, the piece found on a placement's square is that placement's piece. */
  lemma PieceAtIndex(pieces: seq<Placement>, i: int)
    requires DistinctSquares(pieces) && 0 <= i < |pieces|
    ensures PieceAt(pieces, pieces[i].square) == Some(pieces[i].piece)
  {
    PieceAtFound(pieces, pieces[i].square);
  }

  /** The sum of `f` over the pieces. */
  function Sum(pieces: seq<Placement>, f: Placement -> real): real
  {
    if pieces == [] then 0.0 else f(pieces[0]) + Sum(pieces[1..], f)
  }

  lemma {:induction false} SumReplace(pieces: seq<Placement>, i: int, x: Placement, f: Placement -> real)
    requires 0 <= i < |pieces|
    ensures Sum(pieces[i := x], f) == Sum(pieces, f) - f(pieces[i]) + f(x)
  {
    if i > 0 {
      SumReplace(pieces[1..], i - 1, x, f);
      assert pieces[i := x][1..] == pieces[1..][i - 1 := x];
    } else {
      assert pieces[i := x][1..] == pieces[1..];
    }
  }

  function WeightOf(p: Placement): real
  {
    PhaseWeight(p.piece.kind) as real
  }

  function MgOf(p: Placement): real
  {
    PieceValues(p.square, p.piece).0 as real
  }

  function EgOf(p: Placement): real
  {
    PieceValues(p.square, p.piece).1 as real
  }

  function ValueAt(ratio: real): Placement -> real
  {
    (p: Placement) => PieceValue(p.square, p.piece, ratio)
  }

  /** Summing blended values is blending the sums. */
  lemma {:induction false} SumMix(pieces: seq<Placement>, f: Placement -> real, g: Placement -> real,
                                  h: Placement -> real, ratio: real)
    requires forall p :: h(p) == Mix(f(p), g(p), ratio)
    ensures Sum(pieces, h) == Mix(Sum(pieces, f), Sum(pieces, g), ratio)
  {
    if pieces != [] {
      SumMix(pieces[1..], f, g, h, ratio);
      MixAdd(f(pieces[0]), g(pieces[0]), Sum(pieces[1..], f), Sum(pieces[1..], g),
             Sum(pieces, f), Sum(pieces, g), ratio);
    }
  }

  /** Negating the summands negates the sum. */
  lemma {:induction false} SumNegated(pieces: seq<Placement>, f: Placement -> real, g: Placement -> real,
                                      m: Placement -> Placement)
    requires forall p :: g(m(p)) == -f(p)
    ensures Sum(Mapped(pieces, m), g) == -Sum(pieces, f)
  {
    if pieces != [] {
      SumNegated(pieces[1..], f, g, m);
      assert Mapped(pieces, m)[1..] == Mapped(pieces[1..], m);
    }
  }

  lemma {:induction false} SumKept(pieces: seq<Placement>, f: Placement -> real, m: Placement -> Placement)
    requires forall p :: f(m(p)) == f(p)
    ensures Sum(Mapped(pieces, m), f) == Sum(pieces, f)
  {
    if pieces != [] {
      SumKept(pieces[1..], f, m);
      assert Mapped(pieces, m)[1..] == Mapped(pieces[1..], m);
    }
  }

  function Mapped(pieces: seq<Placement>, m: Placement -> Placement): (r: seq<Placement>)
    ensures |r| == |pieces| && forall i :: 0 <= i < |pieces| ==> r[i] == m(pieces[i])
  {
    seq(|pieces|, i requires 0 <= i < |pieces| => m(pieces[i]))
  }

  /** The game phase: the summed phase weights over 24. */
  function GamePhase(pieces: seq<Placement>): (phase: real)
    ensures phase >= 0.0
  {
    SumNonNegative(pieces);
    Sum(pieces, WeightOf) / 24.0
  }

  lemma {:induction false} SumNonNegative(pieces: seq<Placement>)
    ensures Sum(pieces, WeightOf) >= 0.0
  {
    if pieces != [] {
      SumNonNegative(pieces[1..]);
    }
  }

  /** The number of pieces of a type. */
  function Count(pieces: seq<Placement>, k: PieceType): nat
  {
    if pieces == [] then 0 else (if pieces[0].piece.kind == k then 1 else 0) + Count(pieces[1..], k)
  }

  /** The phase counts knights and bishops once, rooks twice and queens four times. */
  lemma {:induction false} PhaseFromCounts(pieces: seq<Placement>)
    ensures GamePhase(pieces) ==
              (Count(pieces, Knight) + Count(pieces, Bishop) + 2 * Count(pieces, Rook) + 4 * Count(pieces, Queen)) as real / 24.0
  {
    WeightSumFromCounts(pieces);
  }

  lemma {:induction false} WeightSumFromCounts(pieces: seq<Placement>)
    ensures Sum(pieces, WeightOf) ==
              (Count(pieces, Knight) + Count(pieces, Bishop) + 2 * Count(pieces, Rook) + 4 * Count(pieces, Queen)) as real
  {
    if pieces != [] {
      WeightSumFromCounts(pieces[1..]);
    }
  }

  /** The full non-pawn starting material (four knights, four bishops, four rooks and two
      queens) is phase 1, the pure midgame. */
  lemma StartingMaterialIsMidgame(pieces: seq<Placement>)
    requires Count(pieces, Knight) == 4 && Count(pieces, Bishop) == 4
    requires Count(pieces, Rook) == 4 && Count(pieces, Queen) == 2
    ensures GamePhase(pieces) == 1.0
  {
    PhaseFromCounts(pieces);
  }

  /** The evaluation of a board: the blended values of all pieces at the board's own
      phase, and that phase. */
  function EvalPieceVals(pieces: seq<Placement>): (r: (real, real))
    ensures r.1 == GamePhase(pieces) && r.1 >= 0.0
    ensures r.0 == Mix(Sum(pieces, MgOf), Sum(pieces, EgOf), r.1)
  {
    var ratio := GamePhase(pieces);
    SumValuesLinear(pieces, ratio);
    (Sum(pieces, ValueAt(ratio)), ratio)
  }

  lemma SumValuesLinear(pieces: seq<Placement>, ratio: real)
    ensures Sum(pieces, ValueAt(ratio)) == Mix(Sum(pieces, MgOf), Sum(pieces, EgOf), ratio)
  {
    SumMix(pieces, MgOf, EgOf, ValueAt(ratio), ratio);
  }

  /** A placement moved to the mirrored square, in the other colour. */
  function MirrorPlacement(p: Placement): Placement
  {
    Placement(Mirror(p.square), Piece(p.piece.kind, Opponent(p.piece.color)))
  }

  /** The board with every piece moved to the mirrored square and given the other colour. */
  function MirrorBoard(pieces: seq<Placement>): (r: seq<Placement>)
    ensures |r| == |pieces|
    ensures forall i :: 0 <= i < |pieces| ==> r[i] == MirrorPlacement(pieces[i])
  {
    Mapped(pieces, MirrorPlacement)
  }

  lemma MirrorPlacementNegates(p: Placement)
    ensures MgOf(MirrorPlacement(p)) == -MgOf(p) && EgOf(MirrorPlacement(p)) == -EgOf(p)
  {
    ColourFlip(p.square, p.piece);
  }

  /** Swapping the colours of a position negates its score and keeps its phase. */
  lemma MirrorBoardNegates(pieces: seq<Placement>)
    ensures EvalPieceVals(MirrorBoard(pieces)).0 == -EvalPieceVals(pieces).0
    ensures EvalPieceVals(MirrorBoard(pieces)).1 == EvalPieceVals(pieces).1
  {
    forall p ensures MgOf(MirrorPlacement(p)) == -MgOf(p) && EgOf(MirrorPlacement(p)) == -EgOf(p) {
      MirrorPlacementNegates(p);
    }
    SumNegated(pieces, MgOf, MgOf, MirrorPlacement);
    SumNegated(pieces, EgOf, EgOf, MirrorPlacement);
    SumKept(pieces, WeightOf, MirrorPlacement);
    var mirrored := MirrorBoard(pieces);
    var mg, eg, ratio := Sum(pieces, MgOf), Sum(pieces, EgOf), GamePhase(pieces);
    var mg', eg' := Sum(mirrored, MgOf), Sum(mirrored, EgOf);
    assert GamePhase(mirrored) == ratio;
    MixNeg(mg, eg, mg', eg', ratio);
    var e, em := EvalPieceVals(pieces), EvalPieceVals(mirrored);
    assert em.1 == e.1;
    assert em.0 == Mix(mg', eg', ratio);
    assert e.0 == Mix(mg, eg, ratio);
    assert em.0 == -e.0;
  }

  // ---------------------------------------------------------------------------
  // The incremental change of one move

  /** The two failures of `Diff`: no piece on the origin square (the assertion), and no
      piece on the square a capture takes from (the ValueError, with that file and rank). */
  datatype DiffError = NoPieceOnOrigin | NoCapturedPiece(file: int, rank: int)

  /** The rank of the captured piece: the destination's, except en passant, where it is
      rank 3 (0-based) for a destination on rank 2 and rank 4 otherwise. */
  function CaptureRank(to: Square, isEnPassant: bool): (rank: int)
    ensures 0 <= rank < 8
    ensures !isEnPassant ==> rank == Rank(to)
    ensures isEnPassant ==> rank == if Rank(to) == 2 then 3 else 4
  {
    if isEnPassant then (if Rank(to) == 2 then 3 else 4) else Rank(to)
  }

  function CaptureSquare(to: Square, isEnPassant: bool): (sq: Square)
    ensures File(sq) == File(to) && Rank(sq) == CaptureRank(to, isEnPassant)
  {
    SquareAt(File(to), CaptureRank(to, isEnPassant))
  }

  /** The (score change, phase change) of a move, from the piece map, the side to move,
      the phase the caller holds and the rules engine's capture and en-passant flags. */
  function Diff(pieces: seq<Placement>, turn: Color, move: Move, phase: real,
                isCapture: bool, isEnPassant: bool): (r: Result<(real, real), DiffError>)
    ensures r.Err? <==> PieceAt(pieces, move.from).None? ||
                        (isCapture && PieceAt(pieces, CaptureSquare(move.to, isEnPassant)).None?)
    ensures r.Ok? ==> -8.0 / 24.0 <= r.value.1 <= 4.0 / 24.0
  {
    var start := PieceAt(pieces, move.from);
    if start.None? then Err(NoPieceOnOrigin)
    else
      var startPiece := start.value;
      var endType := if move.promotion.Some? then move.promotion.value else startPiece.kind;
      var phaseDiff := if move.promotion.Some? then PhaseWeight(endType) - PhaseWeight(startPiece.kind) else 0;
      var startValues := PieceValues(move.from, startPiece);
      var endValues := PieceValues(move.to, Piece(endType, turn));
      var mg := endValues.0 - startValues.0;
      var eg := endValues.1 - startValues.1;
      if isCapture then
        var captureSquare := CaptureSquare(move.to, isEnPassant);
        var captured := PieceAt(pieces, captureSquare);
        if captured.None? then
          Err(NoCapturedPiece(File(move.to), CaptureRank(move.to, isEnPassant)))
        else
          var capturedValues := PieceValues(captureSquare, captured.value);
          Ok(Blend(phase, phaseDiff - PhaseWeight(captured.value.kind),
                   mg - capturedValues.0, eg - capturedValues.1))
      else
        Ok(Blend(phase, phaseDiff, mg, eg))
  }

  /** `Diff` fails exactly when the origin is empty, or when a capture finds no piece on
      the capture square, and then names that square's file and rank. */
  lemma DiffErrors(pieces: seq<Placement>, turn: Color, move: Move, phase: real,
                   isCapture: bool, isEnPassant: bool)
    ensures var r := Diff(pieces, turn, move, phase, isCapture, isEnPassant);
            && (r == Err(NoPieceOnOrigin) <==> PieceAt(pieces, move.from).None?)
            && (r.Err? && r.error.NoCapturedPiece? <==>
                  && PieceAt(pieces, move.from).Some? && isCapture
                  && PieceAt(pieces, CaptureSquare(move.to, isEnPassant)).None?)
            && (r.Err? && r.error.NoCapturedPiece? ==>
                  r.error == NoCapturedPiece(File(move.to), CaptureRank(move.to, isEnPassant)))
  {
  }

  /** The phase change (weight change over 24) and the material change blended at the
      updated phase. */
  function Blend(phase: real, weightDiff: int, mg: int, eg: int): (r: (real, real))
  {
    var phaseDiff := weightDiff as real / 24.0;
    var updated := phase + phaseDiff;
    (Mix(mg as real, eg as real, updated), phaseDiff)
  }

  /** `Blend` restated over reals equal to its integer arguments. */
  lemma BlendMix(phase: real, weightDiff: int, mg: int, eg: int, rmg: real, reg: real, rw: real)
    requires rmg == mg as real && reg == eg as real && rw == weightDiff as real
    ensures Blend(phase, weightDiff, mg, eg) == (Mix(rmg, reg, phase + rw / 24.0), rw / 24.0)
  {
    MixCong(mg as real, eg as real, phase + weightDiff as real / 24.0, rmg, reg, phase + rw / 24.0);
  }

  /** The piece placed on the destination: the promotion piece, or the moving piece's type,
      in the colour of the side to move. */
  function Arriving(start: Piece, move: Move, turn: Color): Placement
  {
    Placement(move.to, Piece(if move.promotion.Some? then move.promotion.value else start.kind, turn))
  }

  /** A move that neither captures nor promotes leaves the phase unchanged. */
  lemma DiffQuietPhase(pieces: seq<Placement>, turn: Color, move: Move, phase: real, isEnPassant: bool)
    requires PieceAt(pieces, move.from).Some? && move.promotion.None?
    ensures var r := Diff(pieces, turn, move, phase, false, isEnPassant);
            r.Ok? && r.value.1 == 0.0
  {
  }

  /** A promotion without capture changes the phase by the weight gained over the pawn's,
      over 24. */
  lemma DiffPromotionPhase(pieces: seq<Placement>, turn: Color, move: Move, phase: real, isEnPassant: bool)
    requires PieceAt(pieces, move.from) == Some(Piece(Pawn, turn)) && move.promotion.Some?
    ensures var r := Diff(pieces, turn, move, phase, false, isEnPassant);
            r.Ok? && r.value.1 == (PhaseWeight(move.promotion.value) - PhaseWeight(Pawn)) as real / 24.0
  {
  }

  /** A capture without promotion lowers the phase by the captured piece's weight over 24. */
  lemma DiffCapturePhase(pieces: seq<Placement>, turn: Color, move: Move, phase: real, isEnPassant: bool)
    requires PieceAt(pieces, move.from).Some? && move.promotion.None?
    requires PieceAt(pieces, CaptureSquare(move.to, isEnPassant)).Some?
    ensures var r := Diff(pieces, turn, move, phase, true, isEnPassant);
            var captured := PieceAt(pieces, CaptureSquare(move.to, isEnPassant)).value;
            r.Ok? && r.value.1 == -(PhaseWeight(captured.kind) as real) / 24.0
  {
  }

  /** Replacing one piece changes the summed values by the blend of that piece's change,
      and the summed weights by its weight change. */
  lemma ReplaceChangesSums(pieces: seq<Placement>, i: int, x: Placement, ratio: real)
    requires 0 <= i < |pieces|
    ensures Sum(pieces[i := x], ValueAt(ratio)) - Sum(pieces, ValueAt(ratio))
            == Mix(MgOf(x) - MgOf(pieces[i]), EgOf(x) - EgOf(pieces[i]), ratio)
    ensures Sum(pieces[i := x], WeightOf) == Sum(pieces, WeightOf) - WeightOf(pieces[i]) + WeightOf(x)
  {
    var after := pieces[i := x];
    SumReplace(pieces, i, x, WeightOf);
    SumReplace(pieces, i, x, MgOf);
    SumReplace(pieces, i, x, EgOf);
    SumValuesLinear(after, ratio);
    SumValuesLinear(pieces, ratio);
    MixSub(Sum(after, MgOf), Sum(after, EgOf), Sum(pieces, MgOf), Sum(pieces, EgOf),
           MgOf(x) - MgOf(pieces[i]), EgOf(x) - EgOf(pieces[i]), ratio);
  }

  /** `Diff` of a move without capture, from the moving piece at index i. */
  lemma DiffQuietValue(pieces: seq<Placement>, turn: Color, move: Move, phase: real,
                       isEnPassant: bool, i: int)
    requires 0 <= i < |pieces| && pieces[i].square == move.from
    requires PieceAt(pieces, move.from) == Some(pieces[i].piece)
    ensures var x := Arriving(pieces[i].piece, move, turn);
            var d := (WeightOf(x) - WeightOf(pieces[i])) / 24.0;
            Diff(pieces, turn, move, phase, false, isEnPassant)
            == Ok((Mix(MgOf(x) - MgOf(pieces[i]), EgOf(x) - EgOf(pieces[i]), phase + d), d))
  {
    var start := pieces[i].piece;
    var x := Arriving(start, move, turn);
    var sv, ev := PieceValues(move.from, start), PieceValues(move.to, x.piece);
    var w := if move.promotion.Some? then PhaseWeight(x.piece.kind) - PhaseWeight(start.kind) else 0;
    BlendMix(phase, w, ev.0 - sv.0, ev.1 - sv.1,
             MgOf(x) - MgOf(pieces[i]), EgOf(x) - EgOf(pieces[i]), WeightOf(x) - WeightOf(pieces[i]));
  }

  /** Replacing one piece moves the board's phase by the weight change over 24, and the
      summed values, blended at any phase moved by that much, by the blend of the piece's
      value change. */
  lemma ReplaceChangesBoard(pieces: seq<Placement>, i: int, x: Placement, phase: real)
    requires 0 <= i < |pieces|
    ensures var d := GamePhase(pieces[i := x]) - GamePhase(pieces);
            var e := (WeightOf(x) - WeightOf(pieces[i])) / 24.0;
            && d == e
            && Sum(pieces[i := x], ValueAt(phase + d)) - Sum(pieces, ValueAt(phase + d))
               == Mix(MgOf(x) - MgOf(pieces[i]), EgOf(x) - EgOf(pieces[i]), phase + e)
  {
    var e := (WeightOf(x) - WeightOf(pieces[i])) / 24.0;
    ReplaceChangesSums(pieces, i, x, phase + e);
    assert phase + (GamePhase(pieces[i := x]) - GamePhase(pieces)) == phase + e;
  }

  /** Replacing a piece by one of the same phase weight keeps the board's phase, and
      changes its evaluation by the blend of the piece's value change at that phase. */
  lemma ReplaceSameWeight(pieces: seq<Placement>, i: int, x: Placement)
    requires 0 <= i < |pieces| && WeightOf(x) == WeightOf(pieces[i])
    ensures var after := pieces[i := x];
            && EvalPieceVals(after).1 == EvalPieceVals(pieces).1
            && EvalPieceVals(after).0 - EvalPieceVals(pieces).0
               == Mix(MgOf(x) - MgOf(pieces[i]), EgOf(x) - EgOf(pieces[i]), GamePhase(pieces))
  {
    ReplaceChangesSums(pieces, i, x, GamePhase(pieces));
    assert GamePhase(pieces[i := x]) == GamePhase(pieces);
  }

  /** So for a quiet, non-promoting move scored at the board's own phase, `Diff` is exactly
      the change of the evaluation, and the phase does not move. */
  lemma DiffQuietIsEvalChange(pieces: seq<Placement>, turn: Color, move: Move, isEnPassant: bool, i: int)
    requires DistinctSquares(pieces) && 0 <= i < |pieces| && pieces[i].square == move.from
    requires move.promotion.None?
    ensures var after := pieces[i := Arriving(pieces[i].piece, move, turn)];
            var r := Diff(pieces, turn, move, GamePhase(pieces), false, isEnPassant);
            && r.Ok? && r.value.1 == 0.0
            && EvalPieceVals(after).1 == EvalPieceVals(pieces).1
            && r.value.0 == EvalPieceVals(after).0 - EvalPieceVals(pieces).0
  {
    var x := Arriving(pieces[i].piece, move, turn);
    PieceAtIndex(pieces, i);
    DiffQuietValue(pieces, turn, move, GamePhase(pieces), isEnPassant, i);
    ReplaceSameWeight(pieces, i, x);
  }

  /** A capture with promotion changes the phase by the weight gained over the pawn's,
      less the captured piece's weight, over 24. */
  lemma DiffCapturePromotionPhase(pieces: seq<Placement>, turn: Color, move: Move, phase: real, isEnPassant: bool)
    requires PieceAt(pieces, move.from) == Some(Piece(Pawn, turn)) && move.promotion.Some?
    requires PieceAt(pieces, CaptureSquare(move.to, isEnPassant)).Some?
    ensures var r := Diff(pieces, turn, move, phase, true, isEnPassant);
            var captured := PieceAt(pieces, CaptureSquare(move.to, isEnPassant)).value;
            && r.Ok?
            && r.value.1 == (PhaseWeight(move.promotion.value) - PhaseWeight(Pawn) - PhaseWeight(captured.kind)) as real
                            / 24.0
  {
  }

  /** The board without the piece at index j. */
  function RemoveAt(pieces: seq<Placement>, j: int): (r: seq<Placement>)
    requires 0 <= j < |pieces|
    ensures |r| == |pieces| - 1
    ensures forall k :: 0 <= k < j ==> r[k] == pieces[k]
    ensures forall k :: j <= k < |r| ==> r[k] == pieces[k + 1]
  {
    pieces[..j] + pieces[j + 1..]
  }

  /** Removing a piece takes its summand out of the sum. */
  lemma {:induction false} SumRemove(pieces: seq<Placement>, j: int, f: Placement -> real)
    requires 0 <= j < |pieces|
    ensures Sum(RemoveAt(pieces, j), f) == Sum(pieces, f) - f(pieces[j])
  {
    if j > 0 {
      SumRemove(pieces[1..], j - 1, f);
      assert RemoveAt(pieces, j)[1..] == RemoveAt(pieces[1..], j - 1);
    } else {
      assert RemoveAt(pieces, 0) == pieces[1..];
    }
  }

  /** The board after a capture, the piece at index i replaced by x and the piece at
      index j removed: its phase moves by x's weight less the replaced and the removed
      pieces' weights, over 24. */
  lemma CaptureChangesPhase(pieces: seq<Placement>, i: int, j: int, x: Placement)
    requires 0 <= i < |pieces| && 0 <= j < |pieces| && i != j
    ensures GamePhase(RemoveAt(pieces[i := x], j))
            == GamePhase(pieces) + (WeightOf(x) - WeightOf(pieces[i]) - WeightOf(pieces[j])) / 24.0
  {
    SumReplace(pieces, i, x, WeightOf);
    SumRemove(pieces[i := x], j, WeightOf);
  }

  /** So for every capture, with or without promotion, by the piece at index i of the piece
      at index j, the phase change of `Diff` is the change of the board's phase: the board
      after the move has the arriving piece at i and no piece j. */
  lemma DiffCaptureIsPhaseChange(pieces: seq<Placement>, turn: Color, move: Move, phase: real,
                                 isEnPassant: bool, i: int, j: int)
    requires DistinctSquares(pieces) && 0 <= i < |pieces| && 0 <= j < |pieces| && i != j
    requires pieces[i].square == move.from && pieces[j].square == CaptureSquare(move.to, isEnPassant)
    ensures var after := RemoveAt(pieces[i := Arriving(pieces[i].piece, move, turn)], j);
            var r := Diff(pieces, turn, move, phase, true, isEnPassant);
            r.Ok? && GamePhase(after) == GamePhase(pieces) + r.value.1
  {
    PieceAtIndex(pieces, i);
    PieceAtIndex(pieces, j);
    CaptureChangesPhase(pieces, i, j, Arriving(pieces[i].piece, move, turn));
  }
}
