/** The sides of a game (ChessLogic/Player.cs). */
module Players {

  /** `None` is the "no player" value used for an idle clock and for a draw's winner. */
  datatype Player = None | White | Black

  /** True for the two sides that actually play. */
  predicate IsSide(p: Player) {
    p != Player.None
  }

  /** The other side; `None` has no opponent and maps to itself. */
  function Opponent(p: Player): (q: Player)
    ensures p == White <==> q == Black
    ensures p == Black <==> q == White
    ensures p == Player.None <==> q == Player.None
  {
    match p
    case Black => White
    case White => Black
    case None => Player.None
  }

  /** Taking the opponent twice gives back the player, for every value including `None`. */
  lemma OpponentInvolution(p: Player)
    ensures Opponent(Opponent(p)) == p
  {
  }

  /** A side's opponent is the other side, never the side itself and never `None`. */
  lemma OpponentOfSide(p: Player)
    requires IsSide(p)
    ensures IsSide(Opponent(p)) && Opponent(p) != p
  {
  }
}
