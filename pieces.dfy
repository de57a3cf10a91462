/** The parts of a chess piece that the game-state bookkeeping looks at (ChessLogic/PieceType.cs). */
module Pieces {
  import opened Players

  datatype PieceType = Pawn | Bishop | Knight | Rook | Queen | King

  /**
   * A piece as seen from outside the board: its type and its colour. Its movement
   * rules and its has-moved flag live behind the board operations of the game module.
   */
  datatype Piece = Piece(kind: PieceType, color: Player)
}
