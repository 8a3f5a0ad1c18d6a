/** The rules of the engine as pure functions over a snapshot of the board.

    A snapshot (BoardState) records what the engine's state holds: which
    piece (by its stable id, with its kind, side and moved flag) stands on
    each of the 64 squares, the per-side en-passant flag (the id of a pawn),
    each side's king (id and position), the side to move and the winner.

    The per-kind movement rules of Piece.cpp are the functions KingCheck ..
    PawnCheck, dispatched by PieceCheck.  A verdict is Illegal (the source's
    nullptr), Quiet (the source returns the moving piece itself) or
    Capture(at) (the source returns the piece standing on square `at`).
    The speculative validator of ChessBoard.cpp is DryRun, the attack test
    IsAttacked, the mate scan NoLegalMove, and a whole turn Submit. */
module Rules {
  import opened Coords

  datatype Option<T> = None | Some(value: T)

  datatype Kind = King | Queen | Rook | Bishop | Knight | Pawn

  /** One square: empty, or a piece with its identity and attributes. */
  datatype Cell = Empty | Holds(id: nat, kind: Kind, side: Side, moved: bool)

  /** grid[rank][file] */
  type Grid = seq<seq<Cell>>

  datatype BoardState = BoardState(
    grid: Grid,
    passant: seq<Option<nat>>,   // per side: the pawn that may be taken en passant
    kingId: seq<nat>,            // per side: the king
    kingPos: seq<Coord>,         // per side: the position recorded in that king
    side: Side,                  // side to move
    winner: int)                 // UNKNOWN, WHITE or BLACK

  datatype Verdict = Illegal | Quiet | Capture(at: Coord)

  /** The classification printed after a move (constants NORMAL .. CHECKMATE). */
  datatype Status = Normal | Check | Stalemate | Checkmate

  /** What submitMove reports; every value but Moved leaves the state alone. */
  datatype Outcome =
    | GameOver | BadSource | BadDestination | NoPiece | WrongTurn | CannotMove
    | Moved(status: Status)

  // ---------------------------------------------------------------------
  // Squares and snapshots

  predicate IsGrid(g: Grid) {
    |g| == ROW && forall r :: 0 <= r < ROW ==> |g[r]| == COL
  }

  predicate WellFormed(b: BoardState) {
    && IsGrid(b.grid)
    && |b.passant| == SIDE && |b.kingId| == SIDE && |b.kingPos| == SIDE
    && CheckCoord(b.kingPos[0]) && CheckCoord(b.kingPos[1])
  }

  function At(g: Grid, p: Coord): Cell
    requires IsGrid(g) && CheckCoord(p)
  {
    g[p.0][p.1]
  }

  /** The grid with square p set to x (the source's setPiece). */
  function Put(g: Grid, p: Coord, x: Cell): (g': Grid)
    requires IsGrid(g) && CheckCoord(p)
    ensures IsGrid(g')
    ensures forall q :: CheckCoord(q) ==> At(g', q) == if q == p then x else At(g, q)
  {
    g[p.0 := g[p.0][p.1 := x]]
  }

  /** Two grids with the same 64 squares are the same grid. */
  lemma GridExt(g: Grid, h: Grid)
    requires IsGrid(g) && IsGrid(h)
    requires forall q :: CheckCoord(q) ==> At(g, q) == At(h, q)
    ensures g == h
  {
    forall r | 0 <= r < ROW
      ensures g[r] == h[r]
    {
      forall c | 0 <= c < COL
        ensures g[r][c] == h[r][c]
      {
        assert At(g, (r, c)) == At(h, (r, c));
      }
    }
  }

  // ---------------------------------------------------------------------
  // Geometry

  function Abs(x: int): nat {
    if x < 0 then -x else x
  }

  function Max(a: int, b: int): int {
    if a < b then b else a
  }

  /** The unit step -1, 0 or 1 towards d (the source's dr and dc). */
  function Sign(d: int): int {
    if d == 0 then 0 else if d > 0 then 1 else -1
  }

  /** k unit steps towards d. */
  function Stride(d: int, k: int): int {
    if d == 0 then 0 else if d > 0 then k else -k
  }

  /** dst lies on the rank, the file or a diagonal through src. */
  predicate OnRay(src: Coord, dst: Coord) {
    dst.0 == src.0 || dst.1 == src.1 || Abs(dst.0 - src.0) == Abs(dst.1 - src.1)
  }

  /** The king's distance between two squares. */
  function Steps(src: Coord, dst: Coord): nat {
    Max(Abs(dst.0 - src.0), Abs(dst.1 - src.1))
  }

  /** The k-th square from src in the direction of dst. */
  function Along(src: Coord, dst: Coord, k: int): Coord {
    (src.0 + Stride(dst.0 - src.0, k), src.1 + Stride(dst.1 - src.1, k))
  }

  /** On a ray, the squares from src to dst all lie between the two ends,
      hence on the board, and the last of them is dst. */
  lemma AlongOnBoard(src: Coord, dst: Coord, k: int)
    requires CheckCoord(src) && CheckCoord(dst) && OnRay(src, dst)
    requires 0 <= k <= Steps(src, dst)
    ensures CheckCoord(Along(src, dst, k))
    ensures k == Steps(src, dst) ==> Along(src, dst, k) == dst
  {
  }

  /** Square k of the walk from src to dst, which is on the board. */
  predicate VacantAlong(g: Grid, src: Coord, dst: Coord, k: int)
    requires IsGrid(g) && CheckCoord(src) && CheckCoord(dst) && OnRay(src, dst)
    requires 0 < k < Steps(src, dst)
  {
    AlongOnBoard(src, dst, k);
    At(g, Along(src, dst, k)).Empty?
  }

  /** Every square strictly between src and dst on their common ray is
      empty; neither end is looked at. */
  predicate ClearBetween(g: Grid, src: Coord, dst: Coord)
    requires IsGrid(g) && CheckCoord(src) && CheckCoord(dst) && OnRay(src, dst)
  {
    forall k :: 0 < k < Steps(src, dst) ==> VacantAlong(g, src, dst, k)
  }

  /** Walking the ray backwards visits the same squares in reverse order. */
  lemma AlongReversed(a: Coord, b: Coord, k: int)
    requires OnRay(a, b) && 0 <= k <= Steps(a, b)
    ensures Steps(b, a) == Steps(a, b)
    ensures Along(b, a, k) == Along(a, b, Steps(a, b) - k)
  {
  }

  /** A clear path is clear in both directions. */
  lemma {:induction false} ClearBetweenSymmetric(g: Grid, a: Coord, b: Coord)
    requires IsGrid(g) && CheckCoord(a) && CheckCoord(b) && OnRay(a, b)
    ensures OnRay(b, a)
    ensures ClearBetween(g, a, b) <==> ClearBetween(g, b, a)
  {
    var n := Steps(a, b);
    AlongReversed(a, b, 0);
    if ClearBetween(g, a, b) {
      forall k | 0 < k < n
        ensures VacantAlong(g, b, a, k)
      {
        AlongReversed(a, b, k);
        assert VacantAlong(g, a, b, n - k);
      }
    }
    if ClearBetween(g, b, a) {
      forall k | 0 < k < n
        ensures VacantAlong(g, a, b, k)
      {
        AlongReversed(a, b, n - k);
        assert VacantAlong(g, b, a, n - k);
      }
    }
  }

  // ---------------------------------------------------------------------
  // Per-piece legality (Piece.cpp)

  /** The pawn's forward direction: +1 for White, -1 for Black. */
  function Direction(side: Side): (d: int)
    ensures d == 1 || d == -1
    ensures d == 1 <==> side == WHITE
  {
    if side != 0 then -1 else 1
  }

  /** The board symbol of a piece: upper case for White, lower case for
      Black; the knight is written 'C'. */
  function Symbol(kind: Kind, side: Side): (ch: char)
    ensures side == WHITE ==> 'A' <= ch <= 'Z'
    ensures side == BLACK ==> 'a' <= ch <= 'z'
  {
    match kind
    case King => if side != 0 then 'k' else 'K'
    case Rook => if side != 0 then 'r' else 'R'
    case Bishop => if side != 0 then 'b' else 'B'
    case Queen => if side != 0 then 'q' else 'Q'
    case Knight => if side != 0 then 'c' else 'C'
    case Pawn => if side != 0 then 'p' else 'P'
  }

  /** A symbol names exactly one kind and side. */
  lemma SymbolInjective(k1: Kind, s1: Side, k2: Kind, s2: Side)
    ensures Symbol(k1, s1) == Symbol(k2, s2) ==> k1 == k2 && s1 == s2
  {
  }

  /** A moving piece: the square src holds a piece. */
  predicate Mover(g: Grid, src: Coord) {
    IsGrid(g) && CheckCoord(src) && At(g, src).Holds?
  }

  /** The check shared by every kind but the pawn: dst is on the board and
      does not hold a piece of the mover's side. */
  predicate BaseAllows(g: Grid, src: Coord, dst: Coord)
    requires Mover(g, src)
  {
    CheckCoord(dst) && !(At(g, dst).Holds? && At(g, dst).side == At(g, src).side)
  }

  /** What a move that passed its geometry lands on: the occupant if any. */
  function Landing(g: Grid, dst: Coord): Verdict
    requires IsGrid(g) && CheckCoord(dst)
  {
    if At(g, dst).Holds? then Capture(dst) else Quiet
  }

  function KingCheck(g: Grid, src: Coord, dst: Coord): Verdict
    requires Mover(g, src)
  {
    if !BaseAllows(g, src, dst) then Illegal
    else if Max(Abs(dst.0 - src.0), Abs(dst.1 - src.1)) > 1 then Illegal
    else Landing(g, dst)
  }

  function RookCheck(g: Grid, src: Coord, dst: Coord): Verdict
    requires Mover(g, src)
  {
    if !BaseAllows(g, src, dst) then Illegal
    else if dst.0 != src.0 && dst.1 != src.1 then Illegal
    else if !ClearBetween(g, src, dst) then Illegal
    else Landing(g, dst)
  }

  function BishopCheck(g: Grid, src: Coord, dst: Coord): Verdict
    requires Mover(g, src)
  {
    if !BaseAllows(g, src, dst) then Illegal
    else if dst.0 + dst.1 != src.0 + src.1 && dst.0 - dst.1 != src.0 - src.1 then Illegal
    else if !ClearBetween(g, src, dst) then Illegal
    else Landing(g, dst)
  }

  function QueenCheck(g: Grid, src: Coord, dst: Coord): Verdict
    requires Mover(g, src)
  {
    if !BaseAllows(g, src, dst) then Illegal
    else if && dst.0 != src.0 && dst.1 != src.1
            && dst.0 + dst.1 != src.0 + src.1 && dst.0 - dst.1 != src.0 - src.1 then Illegal
    else if !ClearBetween(g, src, dst) then Illegal
    else Landing(g, dst)
  }

  function KnightCheck(g: Grid, src: Coord, dst: Coord): Verdict
    requires Mover(g, src)
  {
    if !BaseAllows(g, src, dst) then Illegal
    else if !(|| (Abs(dst.0 - src.0) == 2 && Abs(dst.1 - src.1) == 1)
              || (Abs(dst.0 - src.0) == 1 && Abs(dst.1 - src.1) == 2)) then Illegal
    else Landing(g, dst)
  }

  /** How far dst is ahead of src for a pawn of the given side. */
  function Advance(side: Side, src: Coord, dst: Coord): int {
    (dst.0 - src.0) * Direction(side)
  }

  /** The pawn does not run the shared check: a diagonal step onto any
      occupied square, even one holding a piece of its own side, answers
      that occupant. */
  function PawnCheck(g: Grid, passant: seq<Option<nat>>, src: Coord, dst: Coord): Verdict
    requires Mover(g, src) && CheckCoord(dst) && |passant| == SIDE
  {
    var me := At(g, src);
    var f := Advance(me.side, src, dst);
    if f <= 0 || f > 2 || Abs(dst.1 - src.1) > 1 then Illegal
    else if f == 1 then
      if dst.1 == src.1 then
        (if At(g, dst).Holds? then Illegal else Quiet)
      else if At(g, dst).Holds? then Capture(dst)
      else
        var beside := At(g, (src.0, dst.1));
        if beside.Holds? && passant[1 - me.side] == Some(beside.id) then Capture((src.0, dst.1))
        else Illegal
    else if f == 2 && dst.1 == src.1 then
      if At(g, dst).Holds? || me.moved || !ClearBetween(g, src, dst) then Illegal else Quiet
    else Illegal
  }

  /** May this kind be asked about dst?  The pawn does not range-check. */
  predicate Askable(g: Grid, src: Coord, dst: Coord) {
    Mover(g, src) && (At(g, src).kind == Pawn ==> CheckCoord(dst))
  }

  /** The pieceCheck dispatch.  A verdict other than Illegal always names a
      destination on the board other than src; a quiet move lands on an
      empty square; a capture names an occupied square other than src, and
      only the pawn can capture anything but an enemy piece on dst. */
  function PieceCheck(g: Grid, passant: seq<Option<nat>>, src: Coord, dst: Coord): (v: Verdict)
    requires Askable(g, src, dst) && |passant| == SIDE
    ensures v != Illegal ==> CheckCoord(dst) && dst != src
    ensures v.Quiet? ==> At(g, dst).Empty?
    ensures v.Capture? ==> CheckCoord(v.at) && v.at != src && At(g, v.at).Holds?
    ensures v.Capture? && At(g, src).kind != Pawn ==>
              v.at == dst && At(g, dst).side != At(g, src).side
    ensures v.Capture? && v.at != dst ==>
              && At(g, src).kind == Pawn && At(g, dst).Empty?
              && v.at == (src.0, dst.1) && v.at.0 != dst.0
              && passant[1 - At(g, src).side] == Some(At(g, v.at).id)
  {
    match At(g, src).kind
    case King => KingCheck(g, src, dst)
    case Rook => RookCheck(g, src, dst)
    case Bishop => BishopCheck(g, src, dst)
    case Queen => QueenCheck(g, src, dst)
    case Knight => KnightCheck(g, src, dst)
    case Pawn => PawnCheck(g, passant, src, dst)
  }

  /** The eight squares around src. */
  function Neighbours(src: Coord): set<Coord> {
    var (r, c) := src;
    {(r - 1, c - 1), (r - 1, c), (r - 1, c + 1), (r, c - 1),
     (r, c + 1), (r + 1, c - 1), (r + 1, c), (r + 1, c + 1)}
  }

  /** The king moves to exactly the neighbouring squares not held by its
      own side; it answers the occupant if there is one. */
  lemma KingSteps(g: Grid, passant: seq<Option<nat>>, src: Coord, dst: Coord)
    requires Mover(g, src) && At(g, src).kind == King && |passant| == SIDE
    ensures PieceCheck(g, passant, src, dst) != Illegal <==> BaseAllows(g, src, dst) && dst in Neighbours(src)
    ensures PieceCheck(g, passant, src, dst) != Illegal ==>
              PieceCheck(g, passant, src, dst) == Landing(g, dst)
  {
    if BaseAllows(g, src, dst) {
      assert dst != src;
    }
  }

  const KnightOffsets: set<Coord> :=
    {(1, 2), (2, 1), (-1, 2), (-2, 1), (1, -2), (2, -1), (-1, -2), (-2, -1)}

  /** The knight jumps to exactly the eight knight offsets not held by its
      own side, whatever stands in between. */
  lemma KnightJumps(g: Grid, passant: seq<Option<nat>>, src: Coord, dst: Coord)
    requires Mover(g, src) && At(g, src).kind == Knight && |passant| == SIDE
    ensures PieceCheck(g, passant, src, dst) != Illegal <==>
              BaseAllows(g, src, dst) && (dst.0 - src.0, dst.1 - src.1) in KnightOffsets
  {
  }

  /** The rook moves along its rank or file, through empty squares only,
      onto a square not held by its own side. */
  lemma RookSlides(g: Grid, passant: seq<Option<nat>>, src: Coord, dst: Coord)
    requires Mover(g, src) && At(g, src).kind == Rook && |passant| == SIDE
    ensures PieceCheck(g, passant, src, dst) != Illegal <==>
              && BaseAllows(g, src, dst) && (dst.0 == src.0 || dst.1 == src.1)
              && (forall k :: 0 < k < Steps(src, dst) ==> At(g, Along(src, dst, k)).Empty?)
  {
    if BaseAllows(g, src, dst) && (dst.0 == src.0 || dst.1 == src.1) {
      ClearBetweenSpelledOut(g, src, dst);
    }
  }

  /** The bishop moves along a diagonal through empty squares, onto a
      square not held by its own side. */
  lemma BishopSlides(g: Grid, passant: seq<Option<nat>>, src: Coord, dst: Coord)
    requires Mover(g, src) && At(g, src).kind == Bishop && |passant| == SIDE
    ensures PieceCheck(g, passant, src, dst) != Illegal <==>
              && BaseAllows(g, src, dst) && Abs(dst.0 - src.0) == Abs(dst.1 - src.1)
              && (forall k :: 0 < k < Steps(src, dst) ==> At(g, Along(src, dst, k)).Empty?)
  {
    if BaseAllows(g, src, dst) && Abs(dst.0 - src.0) == Abs(dst.1 - src.1) {
      ClearBetweenSpelledOut(g, src, dst);
    }
  }

  /** ClearBetween in terms of the squares themselves. */
  lemma ClearBetweenSpelledOut(g: Grid, src: Coord, dst: Coord)
    requires IsGrid(g) && CheckCoord(src) && CheckCoord(dst) && OnRay(src, dst)
    ensures forall k :: 0 < k < Steps(src, dst) ==> CheckCoord(Along(src, dst, k))
    ensures ClearBetween(g, src, dst) <==>
              forall k :: 0 < k < Steps(src, dst) ==> At(g, Along(src, dst, k)).Empty?
  {
    forall k | 0 < k < Steps(src, dst)
      ensures CheckCoord(Along(src, dst, k))
      ensures VacantAlong(g, src, dst, k) <==> At(g, Along(src, dst, k)).Empty?
    {
      AlongOnBoard(src, dst, k);
    }
  }

  /** The queen accepts exactly what a rook or a bishop on its square would,
      with the same answer. */
  lemma QueenIsRookOrBishop(g: Grid, passant: seq<Option<nat>>, src: Coord, dst: Coord)
    requires Mover(g, src) && At(g, src).kind == Queen && |passant| == SIDE
    ensures PieceCheck(g, passant, src, dst) ==
              if RookCheck(g, src, dst) != Illegal then RookCheck(g, src, dst) else BishopCheck(g, src, dst)
  {
  }

  /** A pawn only ever goes one or two ranks forward and at most one file
      sideways; two ranks only straight, unmoved, through and onto empty
      squares; one rank straight only onto an empty square. */
  lemma PawnAdvances(g: Grid, passant: seq<Option<nat>>, src: Coord, dst: Coord)
    requires Mover(g, src) && At(g, src).kind == Pawn && CheckCoord(dst) && |passant| == SIDE
    requires PieceCheck(g, passant, src, dst) != Illegal
    ensures var d := Direction(At(g, src).side);
            && (dst.0 == src.0 + d || dst.0 == src.0 + 2 * d)
            && Abs(dst.1 - src.1) <= 1
    ensures dst.0 == src.0 + 2 * Direction(At(g, src).side) ==>
              && dst.1 == src.1 && !At(g, src).moved && At(g, dst).Empty?
              && At(g, (src.0 + Direction(At(g, src).side), src.1)).Empty?
              && PieceCheck(g, passant, src, dst) == Quiet
    ensures dst.1 == src.1 ==> At(g, dst).Empty? && PieceCheck(g, passant, src, dst) == Quiet
  {
    var d := Direction(At(g, src).side);
    if dst.0 == src.0 + 2 * d && dst.1 == src.1 {
      assert Steps(src, dst) == 2;
      assert VacantAlong(g, src, dst, 1);
      assert Along(src, dst, 1) == (src.0 + d, src.1);
    }
  }

  /** The converse for straight moves: a pawn steps one rank forward onto
      an empty square, and an unmoved pawn two ranks forward over an empty
      square onto an empty square, both as quiet moves. */
  lemma PawnPushes(g: Grid, passant: seq<Option<nat>>, src: Coord, dst: Coord)
    requires Mover(g, src) && At(g, src).kind == Pawn && CheckCoord(dst) && |passant| == SIDE
    ensures var d := Direction(At(g, src).side);
            dst == (src.0 + d, src.1) && At(g, dst).Empty? ==> PieceCheck(g, passant, src, dst) == Quiet
    ensures var d := Direction(At(g, src).side);
            && dst == (src.0 + 2 * d, src.1) && !At(g, src).moved && At(g, dst).Empty?
            && At(g, (src.0 + d, src.1)).Empty? ==>
              PieceCheck(g, passant, src, dst) == Quiet
  {
    var d := Direction(At(g, src).side);
    if dst == (src.0 + 2 * d, src.1) {
      assert Steps(src, dst) == 2;
      assert Along(src, dst, 1) == (src.0 + d, src.1);
      assert At(g, (src.0 + d, src.1)).Empty? ==> VacantAlong(g, src, dst, 1);
    }
  }

  /** A pawn's diagonal step answers the occupant of dst, whatever its side;
      onto an empty square it answers the piece beside the pawn only when
      that is the opponent's en-passant pawn. */
  lemma PawnDiagonal(g: Grid, passant: seq<Option<nat>>, src: Coord, dst: Coord)
    requires Mover(g, src) && At(g, src).kind == Pawn && CheckCoord(dst) && |passant| == SIDE
    requires dst.0 == src.0 + Direction(At(g, src).side) && Abs(dst.1 - src.1) == 1
    ensures At(g, dst).Holds? ==> PieceCheck(g, passant, src, dst) == Capture(dst)
    ensures At(g, dst).Empty? ==>
              (PieceCheck(g, passant, src, dst) != Illegal <==>
                 At(g, (src.0, dst.1)).Holds? &&
                 passant[1 - At(g, src).side] == Some(At(g, (src.0, dst.1)).id))
  {
  }

  // ---------------------------------------------------------------------
  // The board: attack test, speculative move, mate scan (ChessBoard.cpp)

  /** The piece on (r, c) belongs to the opponent of s and its pieceCheck
      accepts the square recorded in s's king. */
  predicate AttacksKing(b: BoardState, s: Side, r: int, c: int)
    requires WellFormed(b) && 0 <= r < ROW && 0 <= c < COL
  {
    var q := b.grid[r][c];
    q.Holds? && q.side == 1 - s && PieceCheck(b.grid, b.passant, (r, c), b.kingPos[s]) != Illegal
  }

  /** checkCheck: some piece of the other side attacks s's king. */
  predicate IsAttacked(b: BoardState, s: Side)
    requires WellFormed(b)
  {
    exists r, c :: 0 <= r < ROW && 0 <= c < COL && AttacksKing(b, s, r, c)
  }

  /** The recorded king positions after the piece with the given id went
      to dst: a king records its own position. */
  function MoveKing(kingPos: seq<Coord>, kingId: seq<nat>, id: nat, dst: Coord): (kp: seq<Coord>)
    requires |kingPos| == SIDE && |kingId| == SIDE
    ensures |kp| == SIDE
    ensures forall s :: 0 <= s < SIDE ==> kp[s] == if kingId[s] == id then dst else kingPos[s]
  {
    [if kingId[0] == id then dst else kingPos[0], if kingId[1] == id then dst else kingPos[1]]
  }

  /** The board as the speculative move leaves it: the captured piece off
      its own square, the mover on dst with its moved flag set, src empty. */
  function Tentative(b: BoardState, src: Coord, dst: Coord, v: Verdict): (t: BoardState)
    requires WellFormed(b) && Mover(b.grid, src) && CheckCoord(dst)
    requires v.Capture? ==> CheckCoord(v.at)
    ensures WellFormed(t)
    ensures forall q :: CheckCoord(q) ==>
              At(t.grid, q) == if q == src then Empty
                               else if q == dst then At(b.grid, src).(moved := true)
                               else if v.Capture? && q == v.at then Empty
                               else At(b.grid, q)
    ensures t.passant == b.passant && t.kingId == b.kingId && t.side == b.side && t.winner == b.winner
    ensures t.kingPos == MoveKing(b.kingPos, b.kingId, At(b.grid, src).id, dst)
  {
    var mover := At(b.grid, src);
    var g1 := if v.Capture? then Put(b.grid, v.at, Empty) else b.grid;
    var g2 := Put(g1, dst, mover.(moved := true));
    var g3 := Put(g2, src, Empty);
    b.(grid := g3, kingPos := MoveKing(b.kingPos, b.kingId, mover.id, dst))
  }

  /** The board as the rollback leaves it, from the saved mover cell (with
      its old moved flag) and the saved captured cell. */
  function Rollback(t: BoardState, src: Coord, dst: Coord, v: Verdict, mover: Cell, victim: Cell): (r: BoardState)
    requires WellFormed(t) && CheckCoord(src) && CheckCoord(dst) && mover.Holds?
    requires v.Capture? ==> CheckCoord(v.at)
    ensures WellFormed(r)
  {
    var g1 := Put(t.grid, src, mover);
    var g2 := Put(g1, dst, Empty);
    var g3 := if v.Capture? then Put(g2, v.at, victim) else g2;
    t.(grid := g3, kingPos := MoveKing(t.kingPos, t.kingId, mover.id, src))
  }

  /** Facts about a snapshot that the engine keeps: no id on two squares,
      an en-passant flag only names a pawn of its side, and a square holding
      a king's id holds that side's king at the recorded position. */
  ghost predicate Consistent(b: BoardState) {
    && WellFormed(b)
    && (forall p, q ::
          (CheckCoord(p) && CheckCoord(q) && At(b.grid, p).Holds? && At(b.grid, q).Holds? &&
           At(b.grid, p).id == At(b.grid, q).id) ==> p == q)
    && (forall s, p ::
          (0 <= s < SIDE && CheckCoord(p) && At(b.grid, p).Holds? && b.passant[s] == Some(At(b.grid, p).id)) ==>
            At(b.grid, p).kind == Pawn && At(b.grid, p).side == s)
    && (forall s, p ::
          (0 <= s < SIDE && CheckCoord(p) && At(b.grid, p).Holds? && At(b.grid, p).id == b.kingId[s]) ==>
            At(b.grid, p).kind == King && At(b.grid, p).side == s && b.kingPos[s] == p)
  }

  /** A king standing on src is recorded there. */
  predicate KingRecorded(b: BoardState, src: Coord)
    requires WellFormed(b) && Mover(b.grid, src)
  {
    forall s :: 0 <= s < SIDE && b.kingId[s] == At(b.grid, src).id ==> b.kingPos[s] == src
  }

  /** Rollback symmetry: undoing the speculative move with the saved state
      gives back the very board it started from. */
  lemma RollbackRestores(b: BoardState, src: Coord, dst: Coord)
    requires Consistent(b) && Askable(b.grid, src, dst)
    requires PieceCheck(b.grid, b.passant, src, dst) != Illegal
    ensures var v := PieceCheck(b.grid, b.passant, src, dst);
            var victim := if v.Capture? then At(b.grid, v.at) else Empty;
            Rollback(Tentative(b, src, dst, v), src, dst, v, At(b.grid, src), victim) == b
  {
    assert KingRecorded(b, src);
    UndoesVerdict(b, src, dst, PieceCheck(b.grid, b.passant, src, dst));
  }

  /** The same for any verdict of the shape a piece check gives: a quiet
      move onto an empty square, or a capture of an occupied square other
      than src, dst being empty when the capture is beside it. */
  lemma UndoesVerdict(b: BoardState, src: Coord, dst: Coord, v: Verdict)
    requires WellFormed(b) && Mover(b.grid, src) && KingRecorded(b, src)
    requires CheckCoord(dst) && dst != src && v != Illegal
    requires v.Quiet? ==> At(b.grid, dst).Empty?
    requires v.Capture? ==> CheckCoord(v.at) && v.at != src && (v.at != dst ==> At(b.grid, dst).Empty?)
    ensures var victim := if v.Capture? then At(b.grid, v.at) else Empty;
            Rollback(Tentative(b, src, dst, v), src, dst, v, At(b.grid, src), victim) == b
  {
    var victim := if v.Capture? then At(b.grid, v.at) else Empty;
    var t := Tentative(b, src, dst, v);
    var r := Rollback(t, src, dst, v, At(b.grid, src), victim);
    var g1 := Put(t.grid, src, At(b.grid, src));
    var g2 := Put(g1, dst, Empty);
    assert r.grid == if v.Capture? then Put(g2, v.at, victim) else g2;
    forall q | CheckCoord(q)
      ensures At(r.grid, q) == At(b.grid, q)
    {
    }
    GridExt(r.grid, b.grid);
    forall s | 0 <= s < SIDE
      ensures r.kingPos[s] == b.kingPos[s]
    {
    }
  }

  /** dryrunMove: the oracle's verdict, unless the tentative move leaves the
      side to move attacked. */
  function DryRun(b: BoardState, src: Coord, dst: Coord): (v: Verdict)
    requires WellFormed(b) && Askable(b.grid, src, dst)
    ensures PieceCheck(b.grid, b.passant, src, dst).Illegal? ==> v.Illegal?
    ensures !v.Illegal? ==> v == PieceCheck(b.grid, b.passant, src, dst)
    ensures !PieceCheck(b.grid, b.passant, src, dst).Illegal? ==>
              (v.Illegal? <==>
                 IsAttacked(Tentative(b, src, dst, PieceCheck(b.grid, b.passant, src, dst)), b.side))
  {
    var c := PieceCheck(b.grid, b.passant, src, dst);
    if c.Illegal? then Illegal
    else if IsAttacked(Tentative(b, src, dst, c), b.side) then Illegal
    else c
  }

  /** The piece on src (a piece of side s) has no destination the dry run
      accepts. */
  predicate Stuck(b: BoardState, s: Side, src: Coord)
    requires WellFormed(b) && CheckCoord(src)
  {
    At(b.grid, src).Holds? && At(b.grid, src).side == s ==>
      forall i, j :: 0 <= i < ROW && 0 <= j < COL ==> DryRun(b, src, (i, j)).Illegal?
  }

  /** mateCheck: no piece of s has any of the 64 destinations accepted. */
  predicate NoLegalMove(b: BoardState, s: Side)
    requires WellFormed(b)
  {
    forall r, c :: 0 <= r < ROW && 0 <= c < COL ==> Stuck(b, s, (r, c))
  }

  /** The board after a committed move: the tentative board, the mover's
      side's en-passant flag set to the mover iff it is a pawn that went two
      ranks (cleared otherwise), and the turn passed. */
  function Commit(b: BoardState, src: Coord, dst: Coord, v: Verdict): (c: BoardState)
    requires WellFormed(b) && Mover(b.grid, src) && CheckCoord(dst)
    requires v.Capture? ==> CheckCoord(v.at)
    ensures WellFormed(c)
  {
    var t := Tentative(b, src, dst, v);
    var mover := At(b.grid, src);
    var flag := if mover.kind == Pawn && Abs(src.0 - dst.0) == 2 then Some(mover.id) else None;
    t.(passant := t.passant[b.side := flag], side := 1 - b.side)
  }

  function Classify(check: bool, mate: bool): (st: Status)
    ensures st == Checkmate <==> check && mate
    ensures st == Stalemate <==> !check && mate
    ensures st == Check <==> check && !mate
  {
    if check && mate then Checkmate
    else if check then Check
    else if mate then Stalemate
    else Normal
  }

  /** submitMove on a snapshot: the guards, the dry run, the commit and the
      classification of the new side to move. */
  function Submit(b: BoardState, src: string, dst: string): (res: (BoardState, Outcome))
    requires WellFormed(b)
  {
    if b.winner != UNKNOWN then (b, GameOver)
    else
      var s, d := StrCoord(src), StrCoord(dst);
      if !CheckCoord(s) then (b, BadSource)
      else if !CheckCoord(d) then (b, BadDestination)
      else if At(b.grid, s).Empty? then (b, NoPiece)
      else if At(b.grid, s).side != b.side then (b, WrongTurn)
      else
        var v := DryRun(b, s, d);
        if v.Illegal? then (b, CannotMove)
        else
          var c := Commit(b, s, d, v);
          var check := IsAttacked(c, c.side);
          var mate := NoLegalMove(c, c.side);
          (c.(winner := if mate then 1 - c.side else c.winner), Moved(Classify(check, mate)))
  }

  // ---------------------------------------------------------------------
  // Properties of a turn

  /** The square recorded in s's king holds that king. */
  predicate KingPlaced(b: BoardState, s: Side)
    requires WellFormed(b)
  {
    At(b.grid, b.kingPos[s]).Holds? && At(b.grid, b.kingPos[s]).id == b.kingId[s]
  }

  /** When dst is occupied the en-passant flags play no part in a verdict. */
  lemma PieceCheckIgnoresPassant(g: Grid, p1: seq<Option<nat>>, p2: seq<Option<nat>>, src: Coord, dst: Coord)
    requires Askable(g, src, dst) && CheckCoord(dst) && At(g, dst).Holds?
    requires |p1| == SIDE && |p2| == SIDE
    ensures PieceCheck(g, p1, src, dst) == PieceCheck(g, p2, src, dst)
  {
  }

  /** A rejected submission changes nothing; each guard gives its own
      outcome, in the order the source tests them. */
  lemma SubmitGuards(b: BoardState, src: string, dst: string)
    requires WellFormed(b)
    ensures var (n, out) := Submit(b, src, dst);
            && (!out.Moved? ==> n == b)
            && (out == GameOver <==> b.winner != UNKNOWN)
            && (b.winner == UNKNOWN && !CheckCoord(StrCoord(src)) ==> out == BadSource)
            && (b.winner == UNKNOWN && CheckCoord(StrCoord(src)) && !CheckCoord(StrCoord(dst)) ==>
                  out == BadDestination)
            && (out.Moved? ==> b.winner == UNKNOWN && CheckCoord(StrCoord(src)) && CheckCoord(StrCoord(dst)))
  {
  }

  /** Turn discipline: a piece of the side not to move is never moved. */
  lemma TurnDiscipline(b: BoardState, src: string, dst: string)
    requires WellFormed(b) && b.winner == UNKNOWN
    requires CheckCoord(StrCoord(src)) && CheckCoord(StrCoord(dst))
    requires At(b.grid, StrCoord(src)).Holds? && At(b.grid, StrCoord(src)).side != b.side
    ensures Submit(b, src, dst) == (b, WrongTurn)
  {
  }

  /** A successful submission moves the piece on src to dst with its moved
      flag set, empties src, removes the captured piece from its own square
      (for en passant not dst), leaves every other square alone, records the
      en-passant flag of the side that moved and passes the turn. */
  lemma SubmitMoves(b: BoardState, src: string, dst: string)
    requires WellFormed(b) && Submit(b, src, dst).1.Moved?
    ensures var (s, d) := (StrCoord(src), StrCoord(dst));
            var n := Submit(b, src, dst).0;
            var v := DryRun(b, s, d);
            var m := At(b.grid, s);
            && CheckCoord(s) && CheckCoord(d) && m.Holds? && m.side == b.side
            && v == PieceCheck(b.grid, b.passant, s, d) && v != Illegal
            && At(n.grid, d) == m.(moved := true)
            && At(n.grid, s) == Empty
            && (v.Capture? ==>
                  && At(b.grid, v.at).Holds?
                  && At(n.grid, v.at) == (if v.at == d then m.(moved := true) else Empty))
            && (forall q :: CheckCoord(q) && q != s && q != d && !(v.Capture? && q == v.at) ==>
                  At(n.grid, q) == At(b.grid, q))
            && n.side == 1 - b.side
            && n.passant[b.side] == (if m.kind == Pawn && Abs(s.0 - d.0) == 2 then Some(m.id) else None)
            && n.passant[1 - b.side] == b.passant[1 - b.side]
            && n.kingId == b.kingId
  {
  }

  /** After a successful submission the game is decided exactly when the
      side now to move has no legal move, checkmate or stalemate alike, and
      then the side that moved wins; otherwise the winner stays UNKNOWN. */
  lemma SubmitDecides(b: BoardState, src: string, dst: string)
    requires WellFormed(b) && Submit(b, src, dst).1.Moved?
    ensures var (n, out) := Submit(b, src, dst);
            var c := n.(winner := UNKNOWN);
            && (n.winner == b.side <==> NoLegalMove(c, n.side))
            && (n.winner == UNKNOWN <==> !NoLegalMove(c, n.side))
            && out.status == Classify(IsAttacked(c, n.side), NoLegalMove(c, n.side))
  {
  }

  /** The side that moved is not in check after its move: the committed
      board differs from the one the dry run tested only in the en-passant
      flag and the turn, and neither matters when the king's square is
      occupied. */
  lemma SubmitKeepsMoverSafe(b: BoardState, src: string, dst: string)
    requires Consistent(b) && KingPlaced(b, b.side) && Submit(b, src, dst).1.Moved?
    ensures !IsAttacked(Submit(b, src, dst).0, b.side)
  {
    var (s, d) := (StrCoord(src), StrCoord(dst));
    var v := DryRun(b, s, d);
    var m := At(b.grid, s);
    var t := Tentative(b, s, d, v);
    var n := Submit(b, src, dst).0;
    assert !IsAttacked(t, b.side);
    assert n.grid == t.grid && n.kingPos == t.kingPos;
    var k := t.kingPos[b.side];
    if b.kingId[b.side] == m.id {
      assert k == d;
    } else {
      assert k == b.kingPos[b.side];
      assert k != s;
    }
    assert At(t.grid, k).Holds?;
    AttackIgnoresFlags(t, n, b.side);
  }

  /** Whether s's king is attacked depends only on the grid and the king
      positions once the king's square is occupied: the en-passant flags,
      the turn and the winner play no part. */
  lemma AttackIgnoresFlags(t: BoardState, n: BoardState, s: Side)
    requires WellFormed(t) && WellFormed(n) && n.grid == t.grid && n.kingPos == t.kingPos
    requires At(t.grid, t.kingPos[s]).Holds?
    ensures IsAttacked(n, s) == IsAttacked(t, s)
  {
    forall r, c | 0 <= r < ROW && 0 <= c < COL
      ensures AttacksKing(n, s, r, c) == AttacksKing(t, s, r, c)
    {
      if t.grid[r][c].Holds? {
        PieceCheckIgnoresPassant(t.grid, t.passant, n.passant, (r, c), t.kingPos[s]);
      }
    }
  }

  /** A successful submission keeps the snapshot consistent. */
  lemma SubmitPreservesConsistent(b: BoardState, src: string, dst: string)
    requires Consistent(b)
    ensures Consistent(Submit(b, src, dst).0)
  {
    if Submit(b, src, dst).1.Moved? {
      var (s, d) := (StrCoord(src), StrCoord(dst));
      SubmitMoves(b, src, dst);
      MovedConsistent(b, Submit(b, src, dst).0, s, d, DryRun(b, s, d));
    }
  }

  /** The step of the above: a board n that differs from a consistent b
      by a move of the piece m on s to d (as SubmitMoves describes it) is
      consistent. */
  lemma MovedConsistent(b: BoardState, n: BoardState, s: Coord, d: Coord, v: Verdict)
    requires Consistent(b) && WellFormed(n) && CheckCoord(s) && CheckCoord(d)
    requires At(b.grid, s).Holds? && At(b.grid, s).side == b.side && v != Illegal
    requires At(n.grid, d) == At(b.grid, s).(moved := true) && At(n.grid, s) == Empty
    requires v.Capture? ==> CheckCoord(v.at) && At(b.grid, v.at).Holds? &&
                            At(n.grid, v.at) == (if v.at == d then At(b.grid, s).(moved := true) else Empty)
    requires forall q :: CheckCoord(q) && q != s && q != d && !(v.Capture? && q == v.at) ==>
               At(n.grid, q) == At(b.grid, q)
    requires n.passant[b.side] == (if At(b.grid, s).kind == Pawn && Abs(s.0 - d.0) == 2 then Some(At(b.grid, s).id) else None)
    requires n.passant[1 - b.side] == b.passant[1 - b.side]
    requires n.kingId == b.kingId && n.kingPos == MoveKing(b.kingPos, b.kingId, At(b.grid, s).id, d)
    ensures Consistent(n)
  {
    var m := At(b.grid, s);
    forall p, q | CheckCoord(p) && CheckCoord(q) && At(n.grid, p).Holds? && At(n.grid, q).Holds? &&
                  At(n.grid, p).id == At(n.grid, q).id
      ensures p == q
    {
      assert p != d ==> At(n.grid, p) == At(b.grid, p);
      assert q != d ==> At(n.grid, q) == At(b.grid, q);
    }
    forall x, p | 0 <= x < SIDE && CheckCoord(p) && At(n.grid, p).Holds? &&
                  n.passant[x] == Some(At(n.grid, p).id)
      ensures At(n.grid, p).kind == Pawn && At(n.grid, p).side == x
    {
      if p != d {
        assert At(n.grid, p) == At(b.grid, p);
      }
    }
    forall x, p | 0 <= x < SIDE && CheckCoord(p) && At(n.grid, p).Holds? &&
                  At(n.grid, p).id == n.kingId[x]
      ensures At(n.grid, p).kind == King && At(n.grid, p).side == x && n.kingPos[x] == p
    {
      if p != d {
        assert At(n.grid, p) == At(b.grid, p);
        assert b.kingId[x] != m.id;
      } else {
        assert At(b.grid, s).id == b.kingId[x];
      }
    }
  }

  // ---------------------------------------------------------------------
  // The initial arrangement (resetBoard)

  /** The back-rank kinds from file A to file H. */
  function HomeRank(c: int): Kind
    requires 0 <= c < COL
  {
    [Rook, Knight, Bishop, Queen, King, Bishop, Knight, Rook][c]
  }

  /** Kind and side of the piece each square starts with, if any. */
  function InitialPiece(p: Coord): Option<(Kind, Side)>
    requires CheckCoord(p)
  {
    if p.0 == 0 then Some((HomeRank(p.1), WHITE))
    else if p.0 == 1 then Some((Pawn, WHITE))
    else if p.0 == 6 then Some((Pawn, BLACK))
    else if p.0 == 7 then Some((HomeRank(p.1), BLACK))
    else None
  }

  /** The square holds what the initial arrangement puts there, unmoved. */
  predicate StartsAs(g: Grid, p: Coord)
    requires IsGrid(g) && CheckCoord(p)
  {
    match InitialPiece(p)
    case None => At(g, p).Empty?
    case Some((k, s)) => At(g, p).Holds? && At(g, p).kind == k && At(g, p).side == s && !At(g, p).moved
  }

  /** The standard initial position, White to move, no winner, no
      en-passant flag, kings on E1 and E8. */
  ghost predicate IsInitial(b: BoardState) {
    && Consistent(b)
    && (forall p :: CheckCoord(p) ==> StartsAs(b.grid, p))
    && b.kingPos == [StrCoord("E1"), StrCoord("E8")]
    && KingPlaced(b, WHITE) && KingPlaced(b, BLACK)
    && b.passant == [None, None]
    && b.side == WHITE && b.winner == UNKNOWN
  }

  /** The cell resetBoard puts on p: the initial piece, unmoved, whose id
      is 8 * rank + file. */
  function InitialCell(p: Coord): (x: Cell)
    requires CheckCoord(p)
  {
    match InitialPiece(p)
    case None => Empty
    case Some((k, s)) => Holds(8 * p.0 + p.1, k, s, false)
  }

  /** b is the board resetBoard sets up: every square holds its
      InitialCell, no en-passant flag, the kings' ids and squares those of
      E1 and E8, White to move, no winner. */
  ghost predicate SetUp(b: BoardState) {
    && IsGrid(b.grid)
    && (forall p :: CheckCoord(p) ==> At(b.grid, p) == InitialCell(p))
    && b.passant == [None, None]
    && b.kingId == [4, 60] && b.kingPos == [(0, 4), (7, 4)]
    && b.side == WHITE && b.winner == UNKNOWN
  }

  /** One rank of the set-up board. */
  function InitialRow(r: int): (row: seq<Cell>)
    requires 0 <= r < ROW
    ensures |row| == COL && forall c :: 0 <= c < COL ==> row[c] == InitialCell((r, c))
  {
    seq(COL, (c: int) requires 0 <= c < COL => InitialCell((r, c)))
  }

  /** The board resetBoard sets up, as a value. */
  function Initial(): (b: BoardState)
    ensures SetUp(b)
  {
    var g := seq(ROW, (r: int) requires 0 <= r < ROW => InitialRow(r));
    assert forall r :: 0 <= r < ROW ==> g[r] == InitialRow(r);
    assert IsGrid(g);
    forall p | CheckCoord(p)
      ensures At(g, p) == InitialCell(p)
    {
      assert g[p.0] == InitialRow(p.0);
    }
    BoardState(g, [None, None], [4, 60], [(0, 4), (7, 4)], WHITE, UNKNOWN)
  }

  /** Some board is set up ... */
  lemma SetUpExists()
    ensures exists b :: SetUp(b)
  {
    var b := Initial();
    assert SetUp(b);
  }

  /** ... and only one: the set-up board is determined square by square. */
  lemma SetUpUnique(a: BoardState, b: BoardState)
    requires SetUp(a) && SetUp(b)
    ensures a == b
  {
    forall r | 0 <= r < ROW
      ensures a.grid[r] == b.grid[r]
    {
      forall c | 0 <= c < COL
        ensures a.grid[r][c] == b.grid[r][c]
      {
        assert At(a.grid, (r, c)) == At(b.grid, (r, c));
      }
    }
  }

  /** The kings start on E1 and E8 with ids 4 and 60. */
  lemma InitialKings()
    ensures InitialCell((0, 4)) == Holds(4, King, WHITE, false)
    ensures InitialCell((7, 4)) == Holds(60, King, BLACK, false)
  {
  }

  /** Two squares whose initial pieces share an id are the same square. */
  lemma InitialIdsDistinct(p: Coord, q: Coord)
    requires CheckCoord(p) && CheckCoord(q)
    requires InitialCell(p).Holds? && InitialCell(q).Holds? && InitialCell(p).id == InitialCell(q).id
    ensures p == q
  {
  }

  /** The board resetBoard sets up is the standard initial position. */
  lemma SetUpIsStandard(b: BoardState)
    requires SetUp(b)
    ensures IsInitial(b)
  {
  }

  /** Neither king is attacked in the initial position. */
  lemma InitialNotInCheck(b: BoardState)
    requires IsInitial(b)
    ensures !IsAttacked(b, WHITE) && !IsAttacked(b, BLACK)
  {
    StrCoordOrigin();
    forall r, c | 0 <= r < ROW && 0 <= c < COL
      ensures !AttacksKing(b, WHITE, r, c) && !AttacksKing(b, BLACK, r, c)
    {
      assert StartsAs(b.grid, (r, c));
    }
  }
}
