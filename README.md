# TerminalChess rules engine, modelled in Dafny

This project models the rules engine of TerminalChess: the `ChessBoard` and `Piece` classes.

`ChessBoard` keeps four pieces of state:
- an 8x8 array of piece pointers;
- the two kings;
- one en-passant pawn per side;
- the side to move and the winner.

Each `Piece` subclass answers `pieceCheck(dst)`: nullptr for an illegal move, the piece itself for a quiet move, or the piece it would capture. `dryrunMove` makes a move on the array, asks `checkCheck` whether the mover's king is then attacked, and rolls the move back. `submitMove` does four things in order: it runs its guards, dry-runs the move, commits it (including the en-passant bookkeeping and the turn change), and classifies the new position with `checkCheck` and `mateCheck`. `resetBoard` lays out the standard initial position.

The project has four modules.

- **`Coords`** (`coords.dfy`) holds the static helpers and the constants of `ChessBoard.h`.
- **`Rules`** (`rules.dfy`) describes the engine on values.
  - A `BoardState` snapshot records each square (empty, or a piece by stable id with its kind, side and moved flag), the per-side en-passant flag (a pawn's id), both kings' ids and recorded positions, the side to move and the winner.
  - The per-kind movement rules are pure functions.
  - `Tentative` and `Rollback` describe what `dryrunMove` does to the board. `DryRun`, `IsAttacked`, `NoLegalMove`, `Commit` and `Submit` describe `dryrunMove`, `checkCheck`, `mateCheck` and a whole turn.
  - The lemmas state the engine's properties:
    - each piece's geometry;
    - that the rollback restores the board;
    - the guards of `submitMove`;
    - what a committed move changes;
    - that the mover is never left in check;
    - how a turn's result is classified;
    - that the consistency invariant is kept;
    - what the initial position is.
- **`Pieces`** (`pieces.dfy`) models `Piece.h` and `Piece.cpp`.
  - `Piece` is a class with constant id, side and kind, and mutable `pos` and `moved`.
  - `pathCheck` is a `while` loop walking the ray. Each `pieceCheck` override is a method.
  - Each query is proved to return the pointer form of the matching `Rules` verdict, on a grid value that the array mirrors square by square.
- **`Board`** (`board.dfy`) models `ChessBoard.cpp`.
  - `ChessBoard` is a class over an `array2<Piece?>`. A ghost field `model` holds the board read as a `Rules.BoardState`, and `Valid()` ties the array, the pieces and the fields to it.
  - `dryrunMove` mutates the array and the mover, then restores them.
  - The nested early-exit loops of `checkCheck` and `mateCheck` are split one loop per method.
  - `submitMove` and `resetBoard` are methods whose postconditions give the resulting state and result in terms of the `Rules` functions.

Three quirks of the source are modelled as written:
- A pawn's diagonal step onto any occupied square, even one holding its own side's piece, answers that occupant (`Piece.cpp:170-174`). Only the pawn skips the base class's same-side and bounds test.
- Stalemate, like checkmate, sets the winner to the side that moved (`ChessBoard.cpp:150-154`).
- The knight is drawn as `C`/`c`.

Pointer identity matters in three places: a capture versus a quiet move, the en-passant comparison, and the king references. The model uses a stable `id` per piece in these places. `resetBoard` gives the piece it creates on (rank, file) the id 8·rank + file.

## Model

| member | source | states |
|---|---|---|
| Coords.StrCoord | ChessBoard.h:47-50 | a string whose length is not 2 gives (-1, -1); otherwise the rank is the second character's offset from '1' and the file the first character's offset from 'A' |
| Coords.CoordStr | ChessBoard.h:56-59 | the name has two characters; for an on-board square they are a letter A..H and a digit 1..8 |
| Coords.GetPlayer | ChessBoard.h:74-77 | side 0 is "White" and every other side "Black", in both directions |
| Coords.CheckCoord | ChessBoard.h:65-68 | definition: both parts lie in [0, 8); its meaning for square names is Coords.ValidNames |
| Coords.StrCoordOrigin | ChessBoard.h:47-50 | "A1" is (0, 0), "H8" is (7, 7), "E1" is (0, 4) and "E8" is (7, 4) |
| Coords.CoordRoundTrip | ChessBoard.h:47-59 | reading back the name of an on-board square gives the square |
| Coords.NameRoundTrip | ChessBoard.h:47-59 | a name that reads as an on-board square is written back unchanged |
| Coords.ValidNames | ChessBoard.h:65-68 | a name reads as an on-board square iff it is a letter A..H followed by a digit 1..8 (checkCoord is 0 <= rank < 8 and 0 <= file < 8) |
| Rules.Direction | Piece.h:138 | a pawn's direction is +1 exactly for White and -1 otherwise |
| Rules.Symbol | Piece.cpp:57-60 | White symbols are upper-case letters and Black symbols lower-case letters |
| Rules.SymbolInjective | Piece.cpp:150-153 | no two (kind, side) pairs share a symbol; the knight's 'C' does not collide with anything |
| Rules.PieceCheck | Piece.cpp:32-40 | every accepted move goes to an on-board square other than the source; a quiet move lands on an empty square; a capture names an occupied square other than the source; every kind but the pawn captures only an enemy piece on the destination; a capture beside the destination is the pawn's en-passant capture of the flagged pawn |
| Rules.ClearBetweenSymmetric | Piece.cpp:13-25 | the path between two squares on a ray is clear in one direction iff it is clear in the other |
| Rules.KingCheck | Piece.cpp:47-55 | definition of King::pieceCheck: the base check, then Chebyshev distance at most 1, then the occupant or a quiet move; its meaning is Rules.KingSteps |
| Rules.RookCheck | Piece.cpp:67-77 | definition of Rook::pieceCheck: the base check, same rank or file, a clear path, then the occupant or a quiet move; its meaning is Rules.RookSlides |
| Rules.BishopCheck | Piece.cpp:89-100 | definition of Bishop::pieceCheck: the base check, equal r+c or r-c, a clear path, then the occupant or a quiet move; its meaning is Rules.BishopSlides |
| Rules.QueenCheck | Piece.cpp:112-125 | definition of Queen::pieceCheck: the base check, any of the four line tests, a clear path, then the occupant or a quiet move; its meaning is Rules.QueenIsRookOrBishop |
| Rules.KnightCheck | Piece.cpp:137-148 | definition of Knight::pieceCheck: the base check and the two offset shapes, no path test; its meaning is Rules.KnightJumps |
| Rules.PawnCheck | Piece.cpp:160-188 | definition of Pawn::pieceCheck in the source's branch order, without the base check; its meaning is Rules.PawnAdvances, Rules.PawnPushes and Rules.PawnDiagonal |
| Rules.KingSteps | Piece.cpp:47-55 | a king accepts exactly the neighbouring squares not held by its side, and answers the occupant if any |
| Rules.RookSlides | Piece.cpp:67-77 | a rook accepts exactly the squares on its rank or file that its side does not hold, with every square in between empty |
| Rules.BishopSlides | Piece.cpp:89-100 | a bishop accepts exactly the squares on its diagonals that its side does not hold, with every square in between empty |
| Rules.QueenIsRookOrBishop | Piece.cpp:112-125 | a queen's verdict is the rook's verdict when that one accepts, and otherwise the bishop's |
| Rules.KnightJumps | Piece.cpp:137-148 | a knight accepts exactly the eight (±1, ±2) and (±2, ±1) offsets not held by its side, with no path check |
| Rules.PawnAdvances | Piece.cpp:160-188 | an accepted pawn move goes one or two ranks forward and at most one file sideways; the two-rank step is straight, from an unmoved pawn, over an empty square onto an empty square; a straight move only goes onto an empty square, quietly |
| Rules.PawnPushes | Piece.cpp:166-186 | the converse for straight moves: a one-rank step onto an empty square is accepted as a quiet move, and so is an unmoved pawn's two-rank step over an empty square onto an empty square; with Rules.PawnAdvances this characterises the straight moves exactly |
| Rules.PawnDiagonal | Piece.cpp:170-178 | a diagonal pawn step onto an occupied square captures the occupant, whatever its side; onto an empty square it is accepted iff the piece beside the pawn is the opponent's en-passant pawn |
| Rules.PieceCheckIgnoresPassant | Piece.cpp:172-177 | when the destination is occupied the en-passant flags do not affect the verdict |
| Rules.IsAttacked | ChessBoard.cpp:191-201 | definition of checkCheck: some piece of the other side has a verdict other than Illegal on the square recorded for the side's king; Board.ChessBoard.CheckCheck is proved equal to it |
| Rules.NoLegalMove | ChessBoard.cpp:203-222 | definition of mateCheck: every piece of the side is refused by the dry run on all 64 destinations; Board.ChessBoard.MateCheck is proved equal to it |
| Rules.Tentative | ChessBoard.cpp:170-175 | square by square, the speculative board has the source emptied, the mover on the destination with moved set, and the captured square emptied; everything else is unchanged, and a moved king records its new position |
| Rules.Rollback | ChessBoard.cpp:179-184 | definition of the restoring setPiece/setMoved/setPos calls on a snapshot; that it undoes Rules.Tentative is Rules.RollbackRestores |
| Rules.RollbackRestores | ChessBoard.cpp:179-184 | undoing the speculative move with the saved mover cell and the saved captured cell gives back exactly the starting board |
| Rules.UndoesVerdict | ChessBoard.cpp:167-184 | the same restoration for every verdict of the shape pieceCheck gives |
| Rules.DryRun | ChessBoard.cpp:159-189 | refused when pieceCheck refuses; otherwise refused iff the mover's side is attacked after the tentative move; an accepted move has pieceCheck's own verdict |
| Rules.Commit | ChessBoard.cpp:118-137 | definition of the committed move: the tentative board, the mover's side's en-passant flag, the turn passed; what it changes is Rules.SubmitMoves |
| Rules.Classify | ChessBoard.cpp:143-154 | checkmate iff check and mate, stalemate iff mate without check, check iff check without mate |
| Rules.Submit | ChessBoard.cpp:77-157 | definition of submitMove on a snapshot: the guards in order, the dry run, the commit and the classification; Board.ChessBoard.SubmitMove is proved equal to it and its properties are the Submit lemmas below |
| Rules.SubmitGuards | ChessBoard.cpp:79-115 | a submission that is not a move changes nothing; the game-over, bad-source and bad-destination outcomes come in the source's order; a move implies no winner and both squares on the board |
| Rules.TurnDiscipline | ChessBoard.cpp:103-107 | a piece of the side not to move is never moved; the outcome is WrongTurn |
| Rules.SubmitMoves | ChessBoard.cpp:117-137 | after a move: the mover is on dst with moved set, src is empty, the captured piece is removed from its own square (not dst, for en passant), and every other square is unchanged; the mover's en-passant flag is the mover iff it is a pawn that went two ranks; the other flag is kept and the side flips |
| Rules.SubmitDecides | ChessBoard.cpp:139-154 | after a move the winner is the side that moved iff the side to move has no legal move, checkmate or stalemate; otherwise it stays UNKNOWN; the status classifies check and mate |
| Rules.SubmitKeepsMoverSafe | ChessBoard.cpp:110-137 | when the mover's king stands on its recorded square, the side that moved is not in check after its move |
| Rules.AttackIgnoresFlags | ChessBoard.cpp:191-201 | when the king's square is occupied, whether that king is attacked depends only on the squares and the kings' positions, not on the en-passant flags, the turn or the winner (on an empty king square a pawn's diagonal step would depend on the flag) |
| Rules.SubmitPreservesConsistent | ChessBoard.cpp:117-137 | every submission keeps the snapshot consistent: distinct ids, en-passant flags naming pawns of their side, and a king's id found only on its recorded square |
| Rules.MovedConsistent | ChessBoard.cpp:118-135 | a board that differs from a consistent one by a committed move is consistent |
| Rules.Initial | ChessBoard.cpp:22-75 | the board resetBoard builds exists, as a value |
| Rules.SetUpUnique | ChessBoard.cpp:22-75 | the board resetBoard builds is determined uniquely |
| Rules.InitialKings | ChessBoard.cpp:33-34 | the kings start on E1 and E8, unmoved, with ids 4 and 60 |
| Rules.InitialIdsDistinct | ChessBoard.cpp:36-70 | no two pieces of the initial arrangement share an id |
| Rules.SetUpIsStandard | ChessBoard.cpp:22-70 | the set-up board is the standard initial position: back ranks R N B Q K B N R, pawns on ranks 2 and 7, kings on E1 and E8, no en-passant flag, White to move, no winner; it is consistent |
| Rules.InitialNotInCheck | ChessBoard.cpp:22-70 | neither king is attacked in the initial position |
| Pieces.Piece.constructor | Piece.h:13-16 | a new piece has the given side, kind and position and has not moved; side and kind are constants |
| Pieces.Piece.SetPos | Piece.h:33-37 | afterwards the position is the given square; only the position changes |
| Pieces.Piece.SetMoved | Piece.h:42-46 | afterwards the moved flag is the given value; only the flag changes |
| Pieces.Piece.IsPawn | Piece.cpp:27-30 | true exactly for a pawn |
| Pieces.Piece.GetSymbol | Piece.cpp:57-60 | the kind's symbol: upper case for White, lower case for Black |
| Pieces.Piece.PathCheck | Piece.cpp:13-25 | the ray walk answers whether every square strictly between the piece and dst is empty; dst itself is not inspected |
| Pieces.Piece.BaseCheck | Piece.cpp:32-40 | nullptr iff dst is off the board or holds a piece of this side; otherwise this piece |
| Pieces.Piece.Landed | Piece.cpp:53-54 | the shared last step of the overrides: the occupant of dst if there is one, otherwise this piece, i.e. the pointer form of Rules.Landing |
| Pieces.Piece.KingPieceCheck | Piece.cpp:47-55 | the pointer form of the king's verdict |
| Pieces.Piece.RookPieceCheck | Piece.cpp:67-77 | the pointer form of the rook's verdict |
| Pieces.Piece.BishopPieceCheck | Piece.cpp:89-100 | the pointer form of the bishop's verdict |
| Pieces.Piece.QueenPieceCheck | Piece.cpp:112-125 | the pointer form of the queen's verdict |
| Pieces.Piece.KnightPieceCheck | Piece.cpp:137-148 | the pointer form of the knight's verdict |
| Pieces.Piece.PawnPieceCheck | Piece.cpp:160-188 | the pointer form of the pawn's verdict, including the en-passant pointer comparison |
| Pieces.Piece.PieceCheck | Piece.h:48 | the virtual dispatch returns the pointer form of Rules.PieceCheck: nullptr for Illegal, this piece for a quiet move, the occupant of the captured square for a capture; it modifies nothing |
| Board.ChessBoard.ValidConsistent | ChessBoard.h:184-195 | the snapshot of a valid board is consistent |
| Board.ChessBoard.constructor | ChessBoard.cpp:9-13 | a new board is valid and is the set-up board |
| Board.ChessBoard.GetPiece | ChessBoard.h:114-117 | the stored reference; it stands on that square and the model holds the same piece there |
| Board.ChessBoard.SetPiece | ChessBoard.h:168-171 | the square holds the given reference afterwards and no other square changes; the previous occupant is not deleted |
| Board.ChessBoard.GetPassantPawn | ChessBoard.h:123-126 | the side's stored en-passant reference, which the model records as that side's flag; when set, it is a pawn of that side |
| Board.ChessBoard.MakeMove | ChessBoard.cpp:170-175 | the array after the updates is the mover on dst, src empty, and the captured square empty; the model becomes Rules.Tentative of the old model |
| Board.ChessBoard.UndoMove | ChessBoard.cpp:179-184 | the mover is back on src with its saved moved flag, dst is empty, and the captured piece is back on its own square |
| Board.ChessBoard.TryMove | ChessBoard.cpp:170-184 | the move is made, the attack test asked and the move undone: the array, the mover and the model end as they began, and the answer is whether the side to move is safe on the tentative board |
| Board.ChessBoard.DryRunMove | ChessBoard.cpp:159-189 | every square, the mover's position and moved flag, and the model end as they began; the result is the pointer form of Rules.DryRun |
| Board.ChessBoard.RankAttacks | ChessBoard.cpp:197-199 | true iff some piece of the other side on the rank attacks the king's square |
| Board.ChessBoard.CheckCheck | ChessBoard.cpp:191-201 | true iff some piece of the other side accepts the square of side s's king (Rules.IsAttacked) |
| Board.ChessBoard.CanMoveToRank | ChessBoard.cpp:218-220 | true iff the dry run accepts some destination on the rank; the model is unchanged |
| Board.ChessBoard.CanMove | ChessBoard.cpp:217-220 | false iff the dry run refuses all 64 destinations of the piece; the model is unchanged |
| Board.ChessBoard.RankStuck | ChessBoard.cpp:215-220 | true iff every piece of the side on the rank is stuck; the model is unchanged |
| Board.ChessBoard.MateCheck | ChessBoard.cpp:203-222 | true iff no piece of side s has a destination the dry run accepts (Rules.NoLegalMove); the model is unchanged |
| Board.ChessBoard.CommitMove | ChessBoard.cpp:118-137 | the new model is Rules.Commit of the old one |
| Board.ChessBoard.PassTurn | ChessBoard.cpp:132-137 | the mover's side's en-passant flag names the mover iff it is a pawn that went two ranks (cleared otherwise), and the side flips |
| Board.ChessBoard.Adjudicate | ChessBoard.cpp:139-154 | the status classifies check and mate; the winner becomes the side that moved iff there is no legal move, checkmate or stalemate |
| Board.ChessBoard.SubmitMove | ChessBoard.cpp:77-157 | the board stays valid, and the new model and the outcome are those of Rules.Submit on the old model |
| Board.ChessBoard.Place | ChessBoard.cpp:36-70 | a fresh unmoved piece of the square's initial kind and side, standing on that square; no other square changes |
| Board.ChessBoard.PlaceBackRank | ChessBoard.cpp:36-43 | every square of the back rank holds its initial piece, unmoved, with the given king on file E; other ranks are unchanged |
| Board.ChessBoard.PlacePawns | ChessBoard.cpp:45-52 | every square of the rank holds a pawn of the side on its own square, unmoved; other ranks are unchanged |
| Board.ChessBoard.LayOut | ChessBoard.cpp:33-70 | on a cleared array, every square ends as resetBoard leaves it, with the kings on E1 and E8 |
| Board.ChessBoard.ResetBoard | ChessBoard.cpp:22-75 | the board is valid and its model is the set-up board, which Rules.SetUpIsStandard shows to be the standard initial position |

## Left out

- The user interface and command-line loop (`UI.*`, `GameUI.cpp`, `GameCLI.cpp`) are not part of this model.
- All text output is left out: the `cout` messages, `drawBoard` and `getName`. `submitMove`'s message becomes the `Outcome` it returns.
- Castling, promotion, `swapPlayer`, `m_promotion_pawn` and `m_status` are left out, because the engine only declares them and never defines or writes them.
- The header's `ChessBoard(std::ostream&)` and `m_ostr` are left out. The model follows the `.cpp` constructor.
- Memory management is not modelled.
  - `delete` and `memset` become removal from the array.
  - A captured piece stays in the ghost set `pieces` but is never on the array again.
  - A stale en-passant reference becomes an id that no square holds, and `Rules.Consistent` says nothing about it.
- The back-pointer `m_board` of each piece is replaced by explicit parameters: the square array and the en-passant references.
- Board.ChessBoard.GetPiece, Board.ChessBoard.GetPassantPawn, Pieces.Piece.IsPawn and Pieces.Piece.GetSymbol are functions. The trivial getters `getPos`, `getMoved` and `getSide` are plain field reads.
- Pieces.Piece.PieceCheck: for a pawn it requires an on-board destination. On an off-board square the source indexes outside the array, which is undefined behaviour. All of its callers pass on-board squares.
- Pieces.Piece.PathCheck requires that dst lie on a rank, file or diagonal through the piece. Otherwise the source's loop does not stop at dst. Every caller tests the geometry first.
- `getKing(side)` (ChessBoard.cpp:193, not declared in ChessBoard.h) is read as `m_king[side]`. A king deleted after a pawn of its own side captured it is a dangling pointer in the source, and the next `checkCheck` has undefined behaviour. The model keeps that king in the ghost set `pieces` and reads it at its last recorded square, which gives the case a defined result the source does not have.
- Board.ChessBoard.UndoMove and Rules.Rollback describe the same rollback in parallel, one on the array and one on the snapshot. The heap proof of Board.ChessBoard.TryMove restores the model from the value saved before the move and proves that the array matches it square by square. It does not go through Rules.Rollback; Rules.RollbackRestores states the same restoration on values.
- Rules.SubmitKeepsMoverSafe assumes that the mover's king stands on its recorded square. The pawn's friendly diagonal capture can take its own king, and then the king's old square holds the pawn, so the property cannot be stated without that hypothesis.
- Board.ChessBoard.MateCheck, Board.ChessBoard.RankStuck, Board.ChessBoard.CanMove and Board.ChessBoard.Adjudicate state that the model is unchanged after their dry runs. They do not state that the array and each piece are restored pointer for pointer, although the source restores both. Board.ChessBoard.DryRunMove does state that restoration.
- Board.ChessBoard.ResetBoard states its result as the unique board `Rules.SetUp` describes (Rules.SetUpUnique), not as an equation with `Rules.Initial()`.
- Coords.StrCoord counts characters, while `std::string::length` counts bytes. The two agree on every ASCII name, and thus on every on-board name. A non-ASCII string such as "é" gives (-1, -1) here, whereas the source reads its two bytes.
- Coords.CoordStr keeps the low eight bits of each character, as the conversion to `char` does. Off-board coordinates can therefore give characters outside A..H and 1..8.
- Several loops and steps are split into helper methods whose composition is the source's single function:
  - `dryrunMove` into Board.ChessBoard.MakeMove, Board.ChessBoard.TryMove and Board.ChessBoard.UndoMove;
  - the loops of `checkCheck` and `mateCheck` into Board.ChessBoard.RankAttacks, Board.ChessBoard.RankStuck, Board.ChessBoard.CanMove and Board.ChessBoard.CanMoveToRank;
  - the end of `submitMove` into Board.ChessBoard.CommitMove, Board.ChessBoard.PassTurn and Board.ChessBoard.Adjudicate;
  - the `setPiece` calls of `resetBoard` into Board.ChessBoard.Place, Board.ChessBoard.PlaceBackRank, Board.ChessBoard.PlacePawns and Board.ChessBoard.LayOut.
