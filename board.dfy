/** The ChessBoard class of ChessBoard.h / ChessBoard.cpp: the 8x8 array of
    piece references, the two kings, the two en-passant references, the side
    to move and the winner.  The ghost field `model` is the board read as a
    value of module Rules; Valid() ties it to the array, the pieces and the
    fields, and every method states its result and its new model in terms
    of Rules.DryRun, Rules.IsAttacked, Rules.NoLegalMove and Rules.Submit
    applied to the model before the call, or of Rules.SetUp. */
module Board {
  import opened Coords
  import opened Rules
  import opened Pieces

  /** The id, kind and side of p are those resetBoard gives the piece on
      (r, c). */
  predicate Fits(p: Piece, r: int, c: int)
    requires 0 <= r < ROW && 0 <= c < COL
  {
    InitialCell((r, c)) == Holds(p.id, p.kind, p.side, false)
  }

  class ChessBoard {
    /** m_board[ROW][COL] */
    const grid: array2<Piece?>
    /** m_king[SIDE] */
    var kings: seq<Piece>
    /** m_passant_pawn[SIDE] */
    var passant: seq<Piece?>
    /** m_side */
    var side: Side
    /** m_winner */
    var winner: int
    /** Every piece created since the last reset, on the board or not. */
    ghost var pieces: set<Piece>
    /** The board read as a value. */
    ghost var model: BoardState

    ghost predicate Valid()
      reads this, grid, pieces`pos, pieces`moved
    {
      && Coherent(grid, passant, pieces)
      && Mirrors(grid, pieces, model.grid)
      && model.passant == Flags(passant)
      && |kings| == SIDE && kings[0] in pieces && kings[1] in pieces
      && kings[0].kind == King && kings[0].side == WHITE && kings[1].kind == King && kings[1].side == BLACK
      && CheckCoord(kings[0].pos) && CheckCoord(kings[1].pos)
      && |model.kingId| == SIDE && model.kingId[0] == kings[0].id && model.kingId[1] == kings[1].id
      && |model.kingPos| == SIDE && model.kingPos[0] == kings[0].pos && model.kingPos[1] == kings[1].pos
      && (passant[0] != null ==> passant[0].kind == Pawn && passant[0].side == WHITE)
      && (passant[1] != null ==> passant[1].kind == Pawn && passant[1].side == BLACK)
      && model.side == side && model.winner == winner
    }

    /** The model of a valid board keeps the facts Rules.Consistent names:
        no id on two squares, en-passant flags naming pawns of their side,
        kings' ids found only on the recorded king squares. */
    lemma ValidConsistent()
      requires Valid()
      ensures Consistent(model)
    {
    }

    /** ChessBoard(): an empty array, then resetBoard. */
    constructor ()
      ensures Valid() && SetUp(model)
    {
      grid := new Piece?[ROW, COL]((r, c) => null);
      kings := [];
      passant := [];
      side := WHITE;
      winner := UNKNOWN;
      pieces := {};
      model := BoardState([], [], [], [], WHITE, UNKNOWN);
      new;
      ResetBoard();
    }

    /** getPiece: the reference on the square; the model holds the same
        piece there. */
    function GetPiece(p: Coord): (q: Piece?)
      reads this, grid, pieces`pos, pieces`moved
      requires Valid() && CheckCoord(p)
      ensures q != null ==> q in pieces && q.pos == p
      ensures CellOf(q) == At(model.grid, p)
    {
      grid[p.0, p.1]
    }

    /** setPiece: overwrites one square and nothing else; the previous
        occupant is not deleted. */
    method SetPiece(p: Coord, q: Piece?)
      requires grid.Length0 == ROW && grid.Length1 == COL && CheckCoord(p)
      modifies grid
      ensures grid[p.0, p.1] == q
      ensures forall r, c :: 0 <= r < ROW && 0 <= c < COL && (r != p.0 || c != p.1) ==> grid[r, c] == old(grid[r, c])
    {
      grid[p.0, p.1] := q;
    }

    /** getPassantPawn: the side's en-passant reference, which the model
        records as that side's flag; when set it is a pawn of that side. */
    function GetPassantPawn(s: Side): (q: Piece?)
      reads this, grid, pieces`pos, pieces`moved
      requires Valid()
      ensures FlagOf(q) == model.passant[s]
      ensures q != null ==> q in pieces && q.kind == Pawn && q.side == s
    {
      passant[s]
    }

    /** After the updates of a move the board is valid again with the model
        Rules.Tentative gives. */
    twostate lemma MovedValid(piece: Piece, new src: Coord, new dst: Coord, new v: Verdict)
      requires old(Valid()) && old(piece.Placed(grid)) && old(piece.pos) == src
      requires CheckCoord(dst) && dst != src
      requires v.Capture? ==> CheckCoord(v.at) && v.at != src
      requires kings == old(kings) && passant == old(passant) && pieces == old(pieces)
      requires side == old(side) && winner == old(winner)
      requires forall p :: p in old(pieces) && p != piece ==> p.pos == old(p.pos) && p.moved == old(p.moved)
      requires piece.pos == dst && piece.moved
      requires forall r, c :: 0 <= r < ROW && 0 <= c < COL ==>
                 grid[r, c] == if r == src.0 && c == src.1 then null
                               else if r == dst.0 && c == dst.1 then piece
                               else if v.Capture? && r == v.at.0 && c == v.at.1 then null
                               else old(grid[r, c])
      requires model == Tentative(old(model), src, dst, v)
      ensures Valid()
    {
      forall r, c | 0 <= r < ROW && 0 <= c < COL && grid[r, c] != null
        ensures grid[r, c] in pieces && grid[r, c].pos == (r, c)
      {
        if r != dst.0 || c != dst.1 {
          assert grid[r, c] == old(grid[r, c]) && grid[r, c] != piece;
        }
      }
      forall r, c | 0 <= r < ROW && 0 <= c < COL
        ensures At(model.grid, (r, c)) == CellOf(grid[r, c])
      {
        if (r != src.0 || c != src.1) && (r != dst.0 || c != dst.1) && !(v.Capture? && r == v.at.0 && c == v.at.1) {
          assert grid[r, c] == old(grid[r, c]);
          if grid[r, c] != null {
            assert grid[r, c] != piece;
          }
        }
      }
      forall s | 0 <= s < SIDE
        ensures model.kingPos[s] == kings[s].pos
      {
        if kings[s] != piece {
          assert kings[s].id != piece.id;
        }
      }
    }

    /** The updates that put `piece` from src on dst (dryrunMove and
        submitMove make the same ones): the captured piece obj, if any, off
        its square, the mover on dst with its square and moved flag updated,
        src cleared.  The new model is Rules.Tentative of the old one. */
    method MakeMove(piece: Piece, src: Coord, dst: Coord, obj: Piece?, ghost v: Verdict)
      requires Valid() && piece.Placed(grid) && src == piece.pos && CheckCoord(dst) && dst != src
      requires v.Capture? ==> CheckCoord(v.at) && v.at != src
      requires obj != null <==> v.Capture?
      requires obj != null ==> obj.pos == v.at
      modifies this`model, grid, piece`pos, piece`moved
      ensures Valid() && model == Tentative(old(model), src, dst, v)
      ensures piece.pos == dst && piece.moved
      ensures forall r, c :: 0 <= r < ROW && 0 <= c < COL ==>
                grid[r, c] == if r == src.0 && c == src.1 then null
                              else if r == dst.0 && c == dst.1 then piece
                              else if v.Capture? && r == v.at.0 && c == v.at.1 then null
                              else old(grid[r, c])
    {
      if obj != null {
        SetPiece(obj.pos, null);
      }
      SetPiece(dst, piece);
      piece.SetPos(dst);
      piece.SetMoved(true);
      SetPiece(src, null);
      model := Tentative(model, src, dst, v);
      MovedValid(piece, src, dst, v);
    }

    /** The rollback of dryrunMove: the mover back on src with its saved
        moved flag, dst cleared, the captured piece back on its square. */
    method UndoMove(piece: Piece, src: Coord, dst: Coord, obj: Piece?, objSrc: Coord, moved: bool)
      requires grid.Length0 == ROW && grid.Length1 == COL && CheckCoord(src) && CheckCoord(dst)
      requires obj != null ==> CheckCoord(objSrc)
      modifies grid, piece`pos, piece`moved
      ensures piece.pos == src && piece.moved == moved
      ensures forall r, c :: 0 <= r < ROW && 0 <= c < COL ==>
                grid[r, c] == if obj != null && r == objSrc.0 && c == objSrc.1 then obj
                              else if r == dst.0 && c == dst.1 then null
                              else if r == src.0 && c == src.1 then piece
                              else old(grid[r, c])
    {
      SetPiece(src, piece);
      piece.SetMoved(moved);
      piece.SetPos(src);
      SetPiece(dst, null);
      if obj != null {
        SetPiece(objSrc, obj);
      }
    }

    /** A board whose array, pieces, fields and model are all as they were
        is valid as it was. */
    twostate lemma Restored()
      requires old(Valid()) && model == old(model)
      requires kings == old(kings) && passant == old(passant) && pieces == old(pieces)
      requires side == old(side) && winner == old(winner)
      requires forall r, c :: 0 <= r < ROW && 0 <= c < COL ==> grid[r, c] == old(grid[r, c])
      requires forall p :: p in old(pieces) ==> p.pos == old(p.pos) && p.moved == old(p.moved)
      ensures Valid()
    {
      forall r, c | 0 <= r < ROW && 0 <= c < COL
        ensures At(model.grid, (r, c)) == CellOf(grid[r, c])
      {
        assert grid[r, c] == old(grid[r, c]);
      }
    }

    /** The middle of dryrunMove: makes the move, asks whether the mover's
        side is then attacked, and undoes the move; the array, the mover and
        the model come back as they were. */
    method TryMove(piece: Piece, src: Coord, dst: Coord, obj: Piece?, objSrc: Coord, moved: bool, ghost v: Verdict)
        returns (safe: bool)
      requires Valid() && piece.Placed(grid) && src == piece.pos && moved == piece.moved
      requires CheckCoord(dst) && dst != src
      requires v.Capture? ==> CheckCoord(v.at) && v.at != src
      requires obj != null <==> v.Capture?
      requires obj != null ==> obj.pos == v.at && objSrc == v.at && grid[v.at.0, v.at.1] == obj
      requires (v.Capture? && v.at == dst) || grid[dst.0, dst.1] == null
      modifies this`model, grid, piece`pos, piece`moved
      ensures Valid() && model == old(model)
      ensures forall i, j :: 0 <= i < ROW && 0 <= j < COL ==> grid[i, j] == old(grid[i, j])
      ensures piece.pos == src && piece.moved == moved
      ensures safe == !IsAttacked(Tentative(old(model), src, dst, v), side)
    {
      ghost var b := model;
      MakeMove(piece, src, dst, obj, v);
      var attacked := CheckCheck(side);
      safe := !attacked;
      UndoMove(piece, src, dst, obj, objSrc, moved);
      model := b;
      assert forall i, j :: 0 <= i < ROW && 0 <= j < COL ==> grid[i, j] == old(grid[i, j]);
      Restored();
    }

    /** dryrunMove: asks the piece, makes the move on the board, tests
        whether the side to move is then attacked, and rolls everything
        back.  The array, the mover and the model are left exactly as they
        were, and the answer is the pointer form of Rules.DryRun: nullptr
        when the move is refused, else the captured piece (possibly taken en
        passant beside dst) or the mover. */
    method DryRunMove(dst: Coord, piece: Piece) returns (r: Piece?)
      requires Valid() && piece.Placed(grid)
      requires piece.kind == Pawn ==> CheckCoord(dst)
      modifies this`model, grid, piece`pos, piece`moved
      ensures Valid() && model == old(model)
      ensures forall i, j :: 0 <= i < ROW && 0 <= j < COL ==> grid[i, j] == old(grid[i, j])
      ensures piece.pos == old(piece.pos) && piece.moved == old(piece.moved) && piece.Placed(grid)
      ensures piece.Answers(grid, DryRun(model, piece.pos, dst), r)
    {
      ghost var b := model;
      ghost var v := Rules.PieceCheck(b.grid, b.passant, piece.pos, dst);
      var obj := piece.PieceCheck(grid, passant, pieces, model.grid, dst);
      if obj == null {
        return null;
      } else if obj == piece {
        obj := null;
      }
      var pieceMoved := piece.moved;
      var pieceSrc := piece.pos;
      var objSrc := if obj != null then obj.pos else NoSquare;
      var res := TryMove(piece, pieceSrc, dst, obj, objSrc, pieceMoved, v);
      if !res {
        return null;
      }
      r := if obj != null then obj else piece;
    }

    /** The column loop of checkCheck on rank r: whether some piece of the
        other side on that rank accepts tar, the square of s's king. */
    method RankAttacks(s: Side, r: int, tar: Coord) returns (hit: bool)
      requires Valid() && 0 <= r < ROW && tar == kings[s].pos
      ensures hit <==> exists j :: 0 <= j < COL && AttacksKing(model, s, r, j)
    {
      for c := 0 to COL
        invariant forall j :: 0 <= j < c ==> !AttacksKing(model, s, r, j)
      {
        var p := GetPiece((r, c));
        if p != null && p.side == 1 - s {
          var q := p.PieceCheck(grid, passant, pieces, model.grid, tar);
          if q != null {
            assert AttacksKing(model, s, r, c);
            return true;
          }
        }
      }
      return false;
    }

    /** checkCheck: whether some piece of the other side accepts the square
        recorded in s's king. */
    method CheckCheck(s: Side) returns (res: bool)
      requires Valid()
      ensures res == IsAttacked(model, s)
    {
      var tar := kings[s].pos;
      for r := 0 to ROW
        invariant forall i, j :: 0 <= i < r && 0 <= j < COL ==> !AttacksKing(model, s, i, j)
      {
        var hit := RankAttacks(s, r, tar);
        if hit {
          return true;
        }
      }
      return false;
    }

    /** The innermost loop of mateCheck: whether the dry run accepts a
        move of p to some square of rank i. */
    method CanMoveToRank(p: Piece, i: int) returns (can: bool)
      requires Valid() && p.Placed(grid) && 0 <= i < ROW
      modifies this`model, grid, p`pos, p`moved
      ensures Valid() && model == old(model) && p.pos == old(p.pos) && p.Placed(grid)
      ensures !can <==> forall y :: 0 <= y < COL ==> DryRun(model, p.pos, (i, y)).Illegal?
    {
      ghost var b := model;
      ghost var src := p.pos;
      for j := 0 to COL
        invariant Valid() && model == b && p.pos == src && p.Placed(grid)
        invariant forall y :: 0 <= y < j ==> DryRun(b, src, (i, y)).Illegal?
      {
        var q := DryRunMove((i, j), p);
        if q != null {
          return true;
        }
      }
      return false;
    }

    /** The two inner loops of mateCheck for the piece p: whether the dry
        run accepts some destination of p.  Every dry run is rolled back, so
        the model is as it was. */
    method CanMove(p: Piece) returns (can: bool)
      requires Valid() && p.Placed(grid)
      modifies this`model, grid, p`pos, p`moved
      ensures Valid() && model == old(model)
      ensures !can <==> forall i, j :: 0 <= i < ROW && 0 <= j < COL ==> DryRun(model, old(p.pos), (i, j)).Illegal?
    {
      ghost var b := model;
      ghost var src := p.pos;
      for i := 0 to ROW
        invariant Valid() && model == b && p.pos == src && p.Placed(grid)
        invariant forall x, y :: 0 <= x < i && 0 <= y < COL ==> DryRun(b, src, (x, y)).Illegal?
      {
        can := CanMoveToRank(p, i);
        if can {
          assert !forall y :: 0 <= y < COL ==> DryRun(b, src, (i, y)).Illegal?;
          return;
        }
      }
      can := false;
    }

    /** The column loop of mateCheck on rank r: whether every piece of side
        s on that rank is stuck. */
    method RankStuck(s: Side, r: int) returns (stuck: bool)
      requires Valid() && 0 <= r < ROW
      modifies this`model, grid, pieces`pos, pieces`moved
      ensures Valid() && model == old(model)
      ensures stuck <==> forall j :: 0 <= j < COL ==> Stuck(model, s, (r, j))
    {
      ghost var b := model;
      for c := 0 to COL
        invariant Valid() && model == b
        invariant forall j :: 0 <= j < c ==> Stuck(b, s, (r, j))
      {
        var p := GetPiece((r, c));
        if p != null && p.side == s {
          var can := CanMove(p);
          if can {
            return false;
          }
        }
      }
      return true;
    }

    /** mateCheck: whether no piece of side s has a destination that the
        dry run accepts.  Every dry run is rolled back, so the model is as it
        was. */
    method MateCheck(s: Side) returns (mate: bool)
      requires Valid()
      modifies this`model, grid, pieces`pos, pieces`moved
      ensures Valid() && model == old(model)
      ensures mate == NoLegalMove(model, s)
    {
      ghost var b := model;
      for r := 0 to ROW
        invariant Valid() && model == b
        invariant forall i, j :: 0 <= i < r && 0 <= j < COL ==> Stuck(b, s, (i, j))
      {
        var stuck := RankStuck(s, r);
        if !stuck {
          return false;
        }
      }
      return true;
    }

    /** The move of submitMove once the dry run has accepted it: the board
        updates, the en-passant reference of the mover's side (set to the
        mover iff it is a pawn that went two ranks, cleared otherwise) and
        the turn.  The new model is Rules.Commit of the old one. */
    method CommitMove(piece: Piece, src: Coord, dst: Coord, obj: Piece?, ghost v: Verdict)
      requires Valid() && piece.Placed(grid) && src == piece.pos && piece.side == side
      requires CheckCoord(dst) && dst != src
      requires v.Capture? ==> CheckCoord(v.at) && v.at != src
      requires obj != null <==> v.Capture?
      requires obj != null ==> obj.pos == v.at
      modifies this`model, this`passant, this`side, grid, piece`pos, piece`moved
      ensures Valid() && model == Commit(old(model), src, dst, v)
    {
      MakeMove(piece, src, dst, obj, v);
      PassTurn(piece, src, dst);
    }

    /** The end of the move in submitMove: the mover's side's en-passant
        reference names the mover iff it is a pawn that went two ranks, and
        the turn passes to the other side. */
    method PassTurn(piece: Piece, src: Coord, dst: Coord)
      requires Valid() && piece in pieces && piece.side == side
      modifies this`model, this`passant, this`side
      ensures Valid()
      ensures model == old(model).(passant := old(model).passant[old(side) :=
                         if piece.kind == Pawn && Abs(src.0 - dst.0) == 2 then Some(piece.id) else None],
                       side := 1 - old(side))
    {
      if piece.IsPawn() && Abs(src.0 - dst.0) == 2 {
        passant := passant[side := piece];
      } else {
        passant := passant[side := null];
      }
      side := 1 - side;
      model := model.(passant := Flags(passant), side := side);
    }

    /** The end of submitMove: whether the side to move is in check and
        whether it has no legal move, the status they classify, and the
        winner, set to the other side on checkmate and on stalemate. */
    method Adjudicate() returns (st: Status)
      requires Valid()
      modifies this`model, this`winner, grid, pieces`pos, pieces`moved
      ensures Valid()
      ensures var mate := NoLegalMove(old(model), old(model).side);
              && model == old(model).(winner := if mate then 1 - old(model).side else old(model).winner)
              && st == Classify(IsAttacked(old(model), old(model).side), mate)
    {
      var check := CheckCheck(side);
      var mate := MateCheck(side);
      if check && mate {
        winner := 1 - side;
        st := Checkmate;
      } else if check {
        st := Check;
      } else if mate {
        winner := 1 - side;
        st := Stalemate;
      } else {
        st := Normal;
      }
      model := model.(winner := winner);
    }

    /** submitMove: the guards in the source's order (game over, source and
        destination squares, empty square, wrong side, refused move), then
        the move.  The new model and the outcome are those of Rules.Submit. */
    method SubmitMove(src: string, dst: string) returns (out: Outcome)
      requires Valid()
      modifies this, grid, pieces`pos, pieces`moved
      ensures Valid()
      ensures model == Submit(old(model), src, dst).0 && out == Submit(old(model), src, dst).1
    {
      ghost var b := model;
      if winner != UNKNOWN {
        return GameOver;
      }
      var s, d := StrCoord(src), StrCoord(dst);
      if !CheckCoord(s) {
        return BadSource;
      } else if !CheckCoord(d) {
        return BadDestination;
      }
      var piece := GetPiece(s);
      if piece == null {
        return NoPiece;
      }
      if piece.side != side {
        return WrongTurn;
      }
      var obj := DryRunMove(d, piece);
      if obj == null {
        return CannotMove;
      }
      CommitMove(piece, s, d, if obj != piece then obj else null, DryRun(b, s, d));
      var st := Adjudicate();
      out := Moved(st);
    }

    /** One setPiece of resetBoard: a new, unmoved piece of the kind and
        side the initial arrangement gives (r, c), put on that square. */
    method Place(r: int, c: int, kind: Kind, s: Side) returns (p: Piece)
      requires grid.Length0 == ROW && grid.Length1 == COL && 0 <= r < ROW && 0 <= c < COL
      requires InitialPiece((r, c)) == Some((kind, s))
      modifies grid
      ensures fresh(p) && grid[r, c] == p && Fits(p, r, c) && p.pos == (r, c) && !p.moved
      ensures forall i, j :: 0 <= i < ROW && 0 <= j < COL && (i != r || j != c) ==> grid[i, j] == old(grid[i, j])
    {
      p := new Piece(8 * r + c, s, kind, (r, c));
      SetPiece((r, c), p);
    }

    /** The pieces of one back rank, files A to H, the side's king (made
        beforehand) on file E. */
    method PlaceBackRank(r: int, s: Side, king: Piece)
      requires grid.Length0 == ROW && grid.Length1 == COL
      requires r == if s == WHITE then 0 else ROW - 1
      requires Fits(king, r, 4) && king.pos == (r, 4) && !king.moved
      modifies grid
      ensures forall c :: 0 <= c < COL ==> grid[r, c] != null && Fits(grid[r, c], r, c) && grid[r, c].pos == (r, c) && !grid[r, c].moved
      ensures grid[r, 4] == king
      ensures forall i, c :: 0 <= i < ROW && i != r && 0 <= c < COL ==> grid[i, c] == old(grid[i, c])
    {
      var rook1 := Place(r, 0, Rook, s);
      var knight1 := Place(r, 1, Knight, s);
      var bishop1 := Place(r, 2, Bishop, s);
      var queen := Place(r, 3, Queen, s);
      SetPiece((r, 4), king);
      var bishop2 := Place(r, 5, Bishop, s);
      var knight2 := Place(r, 6, Knight, s);
      var rook2 := Place(r, 7, Rook, s);
    }

    /** The eight pawns of one side, on its second rank. */
    method PlacePawns(r: int, s: Side)
      requires grid.Length0 == ROW && grid.Length1 == COL
      requires r == if s == WHITE then 1 else ROW - 2
      modifies grid
      ensures forall c :: 0 <= c < COL ==> grid[r, c] != null && Fits(grid[r, c], r, c) && grid[r, c].pos == (r, c) && !grid[r, c].moved
      ensures forall i, c :: 0 <= i < ROW && i != r && 0 <= c < COL ==> grid[i, c] == old(grid[i, c])
    {
      var pa := Place(r, 0, Pawn, s);
      var pb := Place(r, 1, Pawn, s);
      var pc := Place(r, 2, Pawn, s);
      var pd := Place(r, 3, Pawn, s);
      var pe := Place(r, 4, Pawn, s);
      var pf := Place(r, 5, Pawn, s);
      var pg := Place(r, 6, Pawn, s);
      var ph := Place(r, 7, Pawn, s);
    }

    /** (r, c) holds what resetBoard puts there: nothing on ranks 3 to 6,
        elsewhere a piece that fits the square, stands on it and has not
        moved. */
    ghost predicate Laid(r: int, c: int)
      reads grid, if 0 <= r < grid.Length0 && 0 <= c < grid.Length1 && grid[r, c] != null then {grid[r, c]} else {}
      requires 0 <= r < ROW && 0 <= c < COL && grid.Length0 == ROW && grid.Length1 == COL
    {
      if 2 <= r < ROW - 2 then grid[r, c] == null
      else grid[r, c] != null && Fits(grid[r, c], r, c) && grid[r, c].pos == (r, c) && !grid[r, c].moved
    }

    /** The array resetBoard lays out is coherent: pieces record their own
        squares and ids are distinct. */
    lemma SetUpCoherent()
      requires grid.Length0 == ROW && grid.Length1 == COL
      requires forall r, c :: 0 <= r < ROW && 0 <= c < COL ==> Laid(r, c)
      requires pieces == set r, c | 0 <= r < ROW && 0 <= c < COL && grid[r, c] != null :: grid[r, c]
      requires passant == [null, null]
      ensures Coherent(grid, passant, pieces)
    {
      forall p, q | p in pieces && q in pieces && p.id == q.id
        ensures p == q
      {
        var r1, c1 :| 0 <= r1 < ROW && 0 <= c1 < COL && grid[r1, c1] == p;
        var r2, c2 :| 0 <= r2 < ROW && 0 <= c2 < COL && grid[r2, c2] == q;
        assert Laid(r1, c1) && Laid(r2, c2);
        InitialIdsDistinct((r1, c1), (r2, c2));
      }
      forall r, c | 0 <= r < ROW && 0 <= c < COL && grid[r, c] != null
        ensures grid[r, c] in pieces && grid[r, c].pos == (r, c)
      {
        assert Laid(r, c);
      }
    }

    /** The array resetBoard lays out reads as the set-up board. */
    lemma SetUpMirrors(b: BoardState)
      requires grid.Length0 == ROW && grid.Length1 == COL
      requires forall r, c :: 0 <= r < ROW && 0 <= c < COL ==> Laid(r, c)
      requires Framed(grid, pieces) && SetUp(b)
      ensures Mirrors(grid, pieces, b.grid)
    {
      var g := b.grid;
      forall r, c | 0 <= r < ROW && 0 <= c < COL
        ensures At(g, (r, c)) == CellOf(grid[r, c])
      {
        assert Laid(r, c);
      }
    }

    /** The state resetBoard leaves is valid. */
    lemma SetUpValid()
      requires grid.Length0 == ROW && grid.Length1 == COL
      requires forall r, c :: 0 <= r < ROW && 0 <= c < COL ==> Laid(r, c)
      requires pieces == set r, c | 0 <= r < ROW && 0 <= c < COL && grid[r, c] != null :: grid[r, c]
      requires SetUp(model) && passant == [null, null] && side == WHITE && winner == UNKNOWN
      requires |kings| == SIDE && kings[0] == grid[0, 4] && kings[1] == grid[ROW - 1, 4]
      ensures Valid()
    {
      SetUpCoherent();
      SetUpMirrors(model);
      assert Laid(0, 4) && Laid(ROW - 1, 4);
      InitialKings();
    }

    /** The setPiece calls of resetBoard on a cleared array: ranks 1, 2, 8
        and 7 in that order, the kings made beforehand on E1 and E8. */
    method LayOut(whiteKing: Piece, blackKing: Piece)
      requires grid.Length0 == ROW && grid.Length1 == COL
      requires forall i, j :: 0 <= i < ROW && 0 <= j < COL ==> grid[i, j] == null
      requires Fits(whiteKing, 0, 4) && whiteKing.pos == (0, 4) && !whiteKing.moved
      requires Fits(blackKing, ROW - 1, 4) && blackKing.pos == (ROW - 1, 4) && !blackKing.moved
      modifies grid
      ensures forall r, c :: 0 <= r < ROW && 0 <= c < COL ==> Laid(r, c)
      ensures grid[0, 4] == whiteKing && grid[ROW - 1, 4] == blackKing
    {
      PlaceBackRank(0, WHITE, whiteKing);
      PlacePawns(1, WHITE);
      PlaceBackRank(ROW - 1, BLACK, blackKing);
      PlacePawns(ROW - 2, BLACK);
      forall r, c | 0 <= r < ROW && 0 <= c < COL
        ensures Laid(r, c)
      {
      }
    }

    /** resetBoard: clears the array (deletion is removal), clears the
        en-passant references, White to move, no winner, makes the kings and
        lays out ranks 1, 2, 8 and 7 in that order.  The model is then
        the board Rules.SetUp describes, the standard initial position. */
    method ResetBoard()
      requires grid.Length0 == ROW && grid.Length1 == COL
      modifies this, grid
      ensures Valid() && SetUp(model)
    {
      for r := 0 to ROW
        invariant forall i, j :: 0 <= i < r && 0 <= j < COL ==> grid[i, j] == null
      {
        for c := 0 to COL
          invariant forall i, j :: 0 <= i < r && 0 <= j < COL ==> grid[i, j] == null
          invariant forall j :: 0 <= j < c ==> grid[r, j] == null
        {
          SetPiece((r, c), null);
        }
      }
      passant := [null, null];
      side := WHITE;
      winner := UNKNOWN;

      StrCoordOrigin();
      InitialKings();
      var whiteKing := new Piece(4, WHITE, King, StrCoord("E1"));
      var blackKing := new Piece(60, BLACK, King, StrCoord("E8"));
      kings := [whiteKing, blackKing];

      LayOut(whiteKing, blackKing);

      pieces := set r, c | 0 <= r < ROW && 0 <= c < COL && grid[r, c] != null :: grid[r, c];
      SetUpExists();
      ghost var start :| SetUp(start);
      model := start;
      SetUpValid();
    }
  }
}
