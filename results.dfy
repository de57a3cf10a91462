/** How a game ended (ChessLogic/EndReason.cs and ChessLogic/Result.cs). */
module Results {
  import opened Players

  datatype EndReason =
    | None
    | Checkmate
    | Stalemate
    | FiftyMoveRule
    | InsufficientMaterial
    | ThreefoldRepetition
    | TimeOut

  /** An immutable pair of winner and reason; a draw has winner `Player.None`. */
  datatype Result = Result(winner: Player, reason: EndReason)

  /** A decisive result for `winner`. Nothing stops `winner` from being `Player.None`. */
  function Win(winner: Player, reason: EndReason): (r: Result)
    ensures r.winner == winner && r.reason == reason
  {
    Result(winner, reason)
  }

  /** A drawn result: nobody wins. */
  function Draw(reason: EndReason): (r: Result)
    ensures r.winner == Player.None && r.reason == reason
  {
    Result(Player.None, reason)
  }

  /** A "win" for nobody cannot be told apart from a draw with the same reason. */
  lemma WinForNobodyIsDraw(reason: EndReason)
    ensures Win(Player.None, reason) == Draw(reason)
  {
  }
}
