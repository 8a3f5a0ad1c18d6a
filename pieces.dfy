/** The piece objects of Piece.h / Piece.cpp.  A piece knows its side, its
    kind (the subclass), its square and whether it has moved; the board it
    asks about squares is passed to each query as the square array and the
    two en-passant references (the source reaches them through m_board).

    Each query is a method proved against the corresponding function of
    module Rules, read on a grid value g that the array mirrors. */
module Pieces {
  import opened Coords
  import opened Rules

  class Piece {
    /** A stable identity: the snapshot speaks of pieces by id. */
    const id: nat
    const side: Side
    const kind: Kind
    var pos: Coord
    var moved: bool

    /** Piece(board, side, pos): a new piece has not moved. */
    constructor (id: nat, side: Side, kind: Kind, pos: Coord)
      ensures this.id == id && this.side == side && this.kind == kind
      ensures this.pos == pos && !this.moved
    {
      this.id := id;
      this.side := side;
      this.kind := kind;
      this.pos := pos;
      this.moved := false;
    }

    /** setPos: only the recorded square changes. */
    method SetPos(p: Coord)
      modifies this`pos
      ensures pos == p
    {
      pos := p;
    }

    /** setMoved: only the moved flag changes. */
    method SetMoved(m: bool)
      modifies this`moved
      ensures moved == m
    {
      moved := m;
    }

    /** isPawn: the pawn subclass answers true, every other kind false. */
    function IsPawn(): (b: bool)
      ensures b <==> kind == Pawn
    {
      match kind
      case Pawn => true
      case _ => false
    }

    /** getSymbol: the kind's letter, upper case for White. */
    function GetSymbol(): (ch: char)
      ensures ch == Symbol(kind, side)
      ensures side == WHITE ==> 'A' <= ch <= 'Z'
      ensures side == BLACK ==> 'a' <= ch <= 'z'
    {
      Symbol(kind, side)
    }

    /** The piece stands on its recorded square of the board. */
    ghost predicate Placed(grid: array2<Piece?>)
      reads this`pos, grid
    {
      grid.Length0 == ROW && grid.Length1 == COL && CheckCoord(pos) && grid[pos.0, pos.1] == this
    }

    /** r is the pointer the source returns for verdict v: nullptr for
        Illegal, this piece for a quiet move, the occupant of the captured
        square for a capture. */
    ghost predicate Answers(grid: array2<Piece?>, v: Verdict, r: Piece?)
      reads grid
      requires grid.Length0 == ROW && grid.Length1 == COL
    {
      && (r == null <==> v.Illegal?)
      && (v.Quiet? ==> r == this)
      && (v.Capture? ==> CheckCoord(v.at) && r == grid[v.at.0, v.at.1])
    }

    /** pathCheck: walks from the square after pos towards dst and answers
        whether every square strictly between the two is empty. */
    method PathCheck(grid: array2<Piece?>, ghost pieces: set<Piece>, ghost g: Grid, dst: Coord) returns (ok: bool)
      requires Mirrors(grid, pieces, g) && CheckCoord(pos) && CheckCoord(dst) && OnRay(pos, dst)
      ensures ok == ClearBetween(g, pos, dst)
    {
      var src := pos;
      ghost var n: int := Steps(src, dst);
      var dr := Sign(dst.0 - src.0);
      var dc := Sign(dst.1 - src.1);
      var nr, nc := src.0 + dr, src.1 + dc;
      ghost var k: int := 1;
      while dst.0 != nr || dst.1 != nc
        invariant 1 <= k && (k <= n || dst == src)
        invariant nr == Along(src, dst, k).0 && nc == Along(src, dst, k).1
        invariant EmptyBefore(grid, src, dst, k)
        decreases n - k
      {
        AlongStops(src, dst, k);
        AlongOnBoard(src, dst, k);
        if grid[nr, nc] != null {
          VacantSquare(grid, pieces, g, src, dst, k);
          return false;
        }
        EmptyBeforeNext(grid, src, dst, k);
        AlongNext(src, dst, k, nr, nc);
        nr, nc := nr + dr, nc + dc;
        k := k + 1;
      }
      if dst != src {
        AlongStops(src, dst, k);
      }
      ClearFromGrid(grid, pieces, g, src, dst);
      return true;
    }

    /** The base class's pieceCheck: dst on the board and not holding a
        piece of this side; the answer is this piece or nullptr. */
    method BaseCheck(grid: array2<Piece?>, ghost pieces: set<Piece>, ghost g: Grid, dst: Coord) returns (r: Piece?)
      requires Mirrors(grid, pieces, g) && Placed(grid)
      ensures r == null <==> !BaseAllows(g, pos, dst)
      ensures r != null ==> r == this
    {
      if !CheckCoord(dst) {
        return null;
      }
      var p := grid[dst.0, dst.1];
      if p != null && p.side == side {
        return null;
      }
      return this;
    }

    /** Shared tail of the non-pawn kinds: the occupant of dst, else this. */
    method Landed(grid: array2<Piece?>, ghost pieces: set<Piece>, ghost g: Grid, dst: Coord) returns (r: Piece?)
      requires Mirrors(grid, pieces, g) && CheckCoord(dst)
      ensures Answers(grid, Landing(g, dst), r)
    {
      var p := grid[dst.0, dst.1];
      r := if p != null then p else this;
    }

    method KingPieceCheck(grid: array2<Piece?>, ghost pieces: set<Piece>, ghost g: Grid, dst: Coord) returns (r: Piece?)
      requires Mirrors(grid, pieces, g) && Placed(grid)
      ensures Answers(grid, KingCheck(g, pos, dst), r)
    {
      var base := BaseCheck(grid, pieces, g, dst);
      if base == null {
        return null;
      } else if Max(Abs(dst.0 - pos.0), Abs(dst.1 - pos.1)) > 1 {
        return null;
      }
      r := Landed(grid, pieces, g, dst);
    }

    method RookPieceCheck(grid: array2<Piece?>, ghost pieces: set<Piece>, ghost g: Grid, dst: Coord) returns (r: Piece?)
      requires Mirrors(grid, pieces, g) && Placed(grid)
      ensures Answers(grid, RookCheck(g, pos, dst), r)
    {
      var base := BaseCheck(grid, pieces, g, dst);
      if base == null {
        return null;
      } else if dst.0 != pos.0 && dst.1 != pos.1 {
        return null;
      }
      var clear := PathCheck(grid, pieces, g, dst);
      if !clear {
        return null;
      }
      r := Landed(grid, pieces, g, dst);
    }

    method BishopPieceCheck(grid: array2<Piece?>, ghost pieces: set<Piece>, ghost g: Grid, dst: Coord) returns (r: Piece?)
      requires Mirrors(grid, pieces, g) && Placed(grid)
      ensures Answers(grid, BishopCheck(g, pos, dst), r)
    {
      var base := BaseCheck(grid, pieces, g, dst);
      if base == null {
        return null;
      } else if dst.0 + dst.1 != pos.0 + pos.1 && dst.0 - dst.1 != pos.0 - pos.1 {
        return null;
      }
      var clear := PathCheck(grid, pieces, g, dst);
      if !clear {
        return null;
      }
      r := Landed(grid, pieces, g, dst);
    }

    method QueenPieceCheck(grid: array2<Piece?>, ghost pieces: set<Piece>, ghost g: Grid, dst: Coord) returns (r: Piece?)
      requires Mirrors(grid, pieces, g) && Placed(grid)
      ensures Answers(grid, QueenCheck(g, pos, dst), r)
    {
      var base := BaseCheck(grid, pieces, g, dst);
      if base == null {
        return null;
      } else if && dst.0 != pos.0 && dst.1 != pos.1
                && dst.0 + dst.1 != pos.0 + pos.1 && dst.0 - dst.1 != pos.0 - pos.1 {
        return null;
      }
      var clear := PathCheck(grid, pieces, g, dst);
      if !clear {
        return null;
      }
      r := Landed(grid, pieces, g, dst);
    }

    method KnightPieceCheck(grid: array2<Piece?>, ghost pieces: set<Piece>, ghost g: Grid, dst: Coord) returns (r: Piece?)
      requires Mirrors(grid, pieces, g) && Placed(grid)
      ensures Answers(grid, KnightCheck(g, pos, dst), r)
    {
      var base := BaseCheck(grid, pieces, g, dst);
      if base == null {
        return null;
      } else if !(|| (Abs(dst.0 - pos.0) == 2 && Abs(dst.1 - pos.1) == 1)
                  || (Abs(dst.0 - pos.0) == 1 && Abs(dst.1 - pos.1) == 2)) {
        return null;
      }
      r := Landed(grid, pieces, g, dst);
    }

    /** The pawn's pieceCheck.  The en-passant test compares the piece
        beside the pawn with the opponent's en-passant pointer, so an empty
        square beside it never matches (nullptr is returned either way). */
    method PawnPieceCheck(grid: array2<Piece?>, passant: seq<Piece?>, ghost pieces: set<Piece>, ghost g: Grid,
                          dst: Coord) returns (r: Piece?)
      requires Coherent(grid, passant, pieces) && Mirrors(grid, pieces, g) && Placed(grid) && CheckCoord(dst)
      ensures Answers(grid, PawnCheck(g, Flags(passant), pos, dst), r)
    {
      var f := (dst.0 - pos.0) * Direction(side);
      if f <= 0 || f > 2 || Abs(dst.1 - pos.1) > 1 {
        return null;
      } else if f == 1 {
        if dst.1 == pos.1 {
          r := if grid[dst.0, dst.1] != null then null else this;
          return;
        } else {
          var obj := grid[dst.0, dst.1];
          if obj != null {
            return obj;
          }
          obj := grid[pos.0, dst.1];
          assert CellOf(obj) == At(g, (pos.0, dst.1));
          if obj == passant[1 - side] {
            return obj;
          }
          if obj != null && passant[1 - side] != null {
            assert obj.id != passant[1 - side].id;
          }
          return null;
        }
      } else if f == 2 && dst.1 == pos.1 {
        if grid[dst.0, dst.1] != null || moved {
          return null;
        }
        var clear := PathCheck(grid, pieces, g, dst);
        if !clear {
          return null;
        }
        return this;
      }
      return null;
    }

    /** pieceCheck, dispatched on the kind as the virtual call is on the
        subclass. */
    method PieceCheck(grid: array2<Piece?>, passant: seq<Piece?>, ghost pieces: set<Piece>, ghost g: Grid,
                      dst: Coord) returns (r: Piece?)
      requires Coherent(grid, passant, pieces) && Mirrors(grid, pieces, g) && Placed(grid)
      requires kind == Pawn ==> CheckCoord(dst)
      ensures Answers(grid, Rules.PieceCheck(g, Flags(passant), pos, dst), r)
    {
      match kind
      case King => r := KingPieceCheck(grid, pieces, g, dst);
      case Rook => r := RookPieceCheck(grid, pieces, g, dst);
      case Bishop => r := BishopPieceCheck(grid, pieces, g, dst);
      case Queen => r := QueenPieceCheck(grid, pieces, g, dst);
      case Knight => r := KnightPieceCheck(grid, pieces, g, dst);
      case Pawn => r := PawnPieceCheck(grid, passant, pieces, g, dst);
    }
  }

  /** The snapshot of one square. */
  function CellOf(p: Piece?): (x: Cell)
    reads (if p == null then {} else {p})`moved
    ensures x.Empty? <==> p == null
  {
    if p == null then Empty else Holds(p.id, p.kind, p.side, p.moved)
  }

  /** The snapshot of one en-passant pointer: the id of the pawn, if any. */
  function FlagOf(p: Piece?): (f: Option<nat>)
    ensures f.None? <==> p == null
  {
    if p == null then None else Some(p.id)
  }

  function Flags(passant: seq<Piece?>): (fs: seq<Option<nat>>)
    requires |passant| == SIDE
    ensures |fs| == SIDE && fs[0] == FlagOf(passant[0]) && fs[1] == FlagOf(passant[1])
  {
    [FlagOf(passant[0]), FlagOf(passant[1])]
  }

  /** An 8x8 array all of whose pieces belong to the footprint. */
  ghost predicate Framed(grid: array2<Piece?>, pieces: set<Piece>)
    reads grid
  {
    && grid.Length0 == ROW && grid.Length1 == COL
    && forall r, c :: 0 <= r < ROW && 0 <= c < COL && grid[r, c] != null ==> grid[r, c] in pieces
  }

  /** g is the array read square by square: each cell of g is the
      snapshot of the piece (or the empty square) on the same square. */
  ghost predicate Mirrors(grid: array2<Piece?>, pieces: set<Piece>, g: Grid)
    reads grid, pieces`moved
  {
    && Framed(grid, pieces) && IsGrid(g)
    && forall r, c :: 0 <= r < ROW && 0 <= c < COL ==> At(g, (r, c)) == CellOf(grid[r, c])
  }

  /** What every piece query relies on: each piece on the array records the
      square it stands on, the en-passant pointers lie in the footprint, and
      no two pieces of the footprint share an id (so comparing pointers and
      comparing ids agree). */
  ghost predicate Coherent(grid: array2<Piece?>, passant: seq<Piece?>, pieces: set<Piece>)
    reads grid, pieces`pos
  {
    && Framed(grid, pieces)
    && |passant| == SIDE
    && (forall r, c :: 0 <= r < ROW && 0 <= c < COL && grid[r, c] != null ==> grid[r, c].pos == (r, c))
    && (forall s :: 0 <= s < SIDE && passant[s] != null ==> passant[s] in pieces)
    && (forall p, q :: p in pieces && q in pieces && p.id == q.id ==> p == q)
  }

  /** A square strictly between the ends of a ray is vacant in the
      snapshot exactly when the array holds no piece there. */
  lemma VacantSquare(grid: array2<Piece?>, pieces: set<Piece>, g: Grid, src: Coord, dst: Coord, k: int)
    requires Mirrors(grid, pieces, g) && CheckCoord(src) && CheckCoord(dst) && OnRay(src, dst)
    requires 0 < k < Steps(src, dst)
    ensures CheckCoord(Along(src, dst, k))
    ensures VacantAlong(g, src, dst, k) <==>
              grid[Along(src, dst, k).0, Along(src, dst, k).1] == null
  {
    AlongOnBoard(src, dst, k);
  }

  /** The k-th square from src towards dst is on the board and the array
      holds no piece there. */
  ghost predicate EmptyAlong(grid: array2<Piece?>, src: Coord, dst: Coord, k: int)
    reads grid
  {
    var p := Along(src, dst, k);
    0 <= p.0 < grid.Length0 && 0 <= p.1 < grid.Length1 && grid[p.0, p.1] == null
  }

  /** The squares before the k-th one from src towards dst are empty. */
  ghost predicate EmptyBefore(grid: array2<Piece?>, src: Coord, dst: Coord, k: int)
    reads grid
  {
    forall j :: 0 < j < k ==> EmptyAlong(grid, src, dst, j)
  }

  lemma EmptyBeforeNext(grid: array2<Piece?>, src: Coord, dst: Coord, k: int)
    requires EmptyBefore(grid, src, dst, k)
    requires 0 <= Along(src, dst, k).0 < grid.Length0 && 0 <= Along(src, dst, k).1 < grid.Length1
    requires grid[Along(src, dst, k).0, Along(src, dst, k).1] == null
    ensures EmptyBefore(grid, src, dst, k + 1)
  {
  }

  /** Squares found empty one by one make the snapshot's path clear. */
  lemma ClearFromGrid(grid: array2<Piece?>, pieces: set<Piece>, g: Grid, src: Coord, dst: Coord)
    requires Mirrors(grid, pieces, g) && CheckCoord(src) && CheckCoord(dst) && OnRay(src, dst)
    requires EmptyBefore(grid, src, dst, Steps(src, dst))
    ensures ClearBetween(g, src, dst)
  {
    forall j | 0 < j < Steps(src, dst)
      ensures VacantAlong(g, src, dst, j)
    {
      assert EmptyAlong(grid, src, dst, j);
      VacantSquare(grid, pieces, g, src, dst, j);
    }
  }

  /** One more unit step along the direction of dst. */
  lemma AlongNext(src: Coord, dst: Coord, k: int, r: int, c: int)
    requires r == Along(src, dst, k).0 && c == Along(src, dst, k).1
    ensures r + Sign(dst.0 - src.0) == Along(src, dst, k + 1).0
    ensures c + Sign(dst.1 - src.1) == Along(src, dst, k + 1).1
  {
  }

  /** On a ray, the k-th square is dst exactly when k is the full distance. */
  lemma AlongStops(src: Coord, dst: Coord, k: int)
    requires OnRay(src, dst) && 0 <= k && src != dst
    ensures Along(src, dst, k) == dst <==> k == Steps(src, dst)
  {
    var dr, dc := dst.0 - src.0, dst.1 - src.1;
    if Abs(dr) >= Abs(dc) {
      assert Steps(src, dst) == Abs(dr) && dr != 0;
    } else {
      assert Steps(src, dst) == Abs(dc) && dc != 0;
    }
  }
}
