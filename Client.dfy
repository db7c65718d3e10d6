/**
  The browser client's module-level variables `draggedPiece`, `sourceSquare`
  and `playerRole` (public/js/chessgame.js), and the handlers that set and
  clear them: `playerRole`, `dragstart`, `dragend` and `drop`.
*/
module Client {
  import opened Wrappers
  import opened Chess
  import opened Board

  class View {
    var draggedPiece: Option<Piece>
    var sourceSquare: Option<Square>
    var playerRole: Option<Color>

    /** A drag in progress always knows the square it started from. */
    ghost predicate Valid()
      reads this
    {
      draggedPiece.Some? <==> sourceSquare.Some?
    }

    /** Page load: no drag, no role. */
    constructor ()
      ensures Valid()
      ensures draggedPiece.None? && sourceSquare.None? && playerRole.None?
    {
      draggedPiece, sourceSquare, playerRole := None, None, None;
    }

    /** The server's "playerRole" message sets the role; the drag state is untouched. */
    method OnPlayerRole(role: Color)
      modifies this`playerRole
      ensures playerRole == Some(role)
    {
      playerRole := Some(role);
    }

    /**
      `dragstart` on a piece: a drag begins, remembering the piece and its
      square, only when the piece is draggable for this client's role;
      otherwise nothing changes.
    */
    method DragStart(piece: Piece, at: Square)
      requires Valid()
      modifies this`draggedPiece, this`sourceSquare
      ensures Valid()
      ensures Draggable(playerRole, piece) ==> draggedPiece == Some(piece) && sourceSquare == Some(at)
      ensures !Draggable(playerRole, piece) ==>
        draggedPiece == old(draggedPiece) && sourceSquare == old(sourceSquare)
    {
      if playerRole == Some(piece.color) {
        draggedPiece := Some(piece);
        sourceSquare := Some(at);
      }
    }

    /** `dragend`: whatever happened, the drag state is cleared. */
    method DragEnd()
      modifies this`draggedPiece, this`sourceSquare
      ensures Valid()
      ensures draggedPiece.None? && sourceSquare.None?
    {
      draggedPiece := None;
      sourceSquare := None;
    }

    /**
      `drop` on a square: a move from the drag's source square to the target
      is sent exactly when a drag is in progress. The drag state is left for
      `dragend` to clear.
    */
    method Drop(target: Square, pieceAt: string -> Option<Piece>) returns (sent: Option<MoveRequest>)
      requires Valid()
      ensures sent.Some? <==> draggedPiece.Some?
      ensures sent.Some? ==> sent.value == HandleMove(sourceSquare.value, target, pieceAt)
    {
      if draggedPiece.Some? {
        sent := Some(HandleMove(sourceSquare.value, target, pieceAt));
      } else {
        sent := None;
      }
    }
  }

  /**
    A spectator's page never receives a role (its "spectatorRole" handler is
    commented out), so no piece is draggable for it: whatever it tries to drag
    and wherever it drops, no move is sent.
  */
  method SpectatorSendsNoMove(piece: Piece, at: Square, target: Square, pieceAt: string -> Option<Piece>)
    returns (sent: Option<MoveRequest>)
    ensures sent.None?
  {
    var view := new View();
    view.DragStart(piece, at);
    sent := view.Drop(target, pieceAt);
  }
}
