/** The captured-pieces tally (ChessLogic/CapturedPiecesTracker.cs). */
module CapturedPieces {
  import opened Options
  import opened Players
  import opened Pieces

  /** The fixed material value of each piece type. */
  function PieceValue(t: PieceType): (v: nat)
    ensures t == Pawn <==> v == 1
    ensures t == Knight || t == Bishop <==> v == 3
    ensures t == Rook <==> v == 5
    ensures t == Queen <==> v == 9
    ensures t == King <==> v == 0
  {
    match t
    case Pawn => 1
    case Knight => 3
    case Bishop => 3
    case Rook => 5
    case Queen => 9
    case King => 0
  }

  /** The summed value of a list of pieces. */
  function Total(s: seq<Piece>): (r: nat)
    ensures r <= 9 * |s|
  {
    if s == [] then 0 else Total(s[..|s| - 1]) + PieceValue(s[|s| - 1].kind)
  }

  /** The value of two lists appended is the sum of their values. */
  lemma {:induction false} TotalConcat(a: seq<Piece>, b: seq<Piece>)
    ensures Total(a + b) == Total(a) + Total(b)
    decreases |b|
  {
    if b == [] {
      assert a + b == a;
    } else {
      var b' := b[..|b| - 1];
      assert (a + b)[..|a + b| - 1] == a + b';
      TotalConcat(a, b');
    }
  }

  /** The tracker's observable state: both capture lists and the running balance. */
  datatype Tally = Tally(byWhite: seq<Piece>, byBlack: seq<Piece>, advantage: int)

  /** The balance is White's captured material minus Black's captured material. */
  ghost predicate Balanced(t: Tally) {
    t.advantage == Total(t.byWhite) - Total(t.byBlack)
  }

  const Empty := Tally([], [], 0)

  /** The effect of one `AddCapturedPiece` call. */
  function Add(t: Tally, captured: Option<Piece>, capturer: Player): (u: Tally)
    ensures captured.None? || capturer == Player.None ==> u == t
    ensures captured.Some? && capturer == White ==>
      u.byWhite == t.byWhite + [captured.value] && u.byBlack == t.byBlack &&
      u.advantage == t.advantage + PieceValue(captured.value.kind)
    ensures captured.Some? && capturer == Black ==>
      u.byBlack == t.byBlack + [captured.value] && u.byWhite == t.byWhite &&
      u.advantage == t.advantage - PieceValue(captured.value.kind)
    ensures Balanced(t) ==> Balanced(u)
  {
    match captured
    case None => t
    case Some(p) =>
      if capturer == White then
        TotalConcat(t.byWhite, [p]);
        Tally(t.byWhite + [p], t.byBlack, t.advantage + PieceValue(p.kind))
      else if capturer == Black then
        TotalConcat(t.byBlack, [p]);
        Tally(t.byWhite, t.byBlack + [p], t.advantage - PieceValue(p.kind))
      else t
  }

  /** A run of `AddCapturedPiece` calls with no `Reset` in between. */
  function AddAll(t: Tally, captures: seq<(Option<Piece>, Player)>): Tally
  {
    if captures == [] then t
    else
      var last := captures[|captures| - 1];
      Add(AddAll(t, captures[..|captures| - 1]), last.0, last.1)
  }

  /**
   * Between resets the lists only grow at the end and the balance stays
   * equal to the value captured by White minus the value captured by Black.
   */
  lemma {:induction false} AddAllGrowsBalanced(t: Tally, captures: seq<(Option<Piece>, Player)>)
    requires Balanced(t)
    ensures var u := AddAll(t, captures);
      Balanced(u) && t.byWhite <= u.byWhite && t.byBlack <= u.byBlack
      && |u.byWhite| + |u.byBlack| <= |t.byWhite| + |t.byBlack| + |captures|
  {
    if captures != [] {
      AddAllGrowsBalanced(t, captures[..|captures| - 1]);
    }
  }

  /** The game's captured-pieces collaborator. */
  class CapturedPiecesTracker {
    var capturedByWhite: seq<Piece>
    var capturedByBlack: seq<Piece>
    var materialAdvantage: int

    function State(): Tally
      reads this
    {
      Tally(capturedByWhite, capturedByBlack, materialAdvantage)
    }

    ghost predicate Valid()
      reads this
    {
      Balanced(State())
    }

    constructor ()
      ensures Valid() && State() == Empty
    {
      new;
      Reset();
    }

    /** Records `capturedPiece` (absent: nothing to record) as taken by `capturingPlayer`. */
    method AddCapturedPiece(capturedPiece: Option<Piece>, capturingPlayer: Player)
      requires Valid()
      modifies this
      ensures Valid()
      ensures State() == Add(old(State()), capturedPiece, capturingPlayer)
    {
      if capturedPiece.None? {
        return;
      }
      var p := capturedPiece.value;
      if capturingPlayer == White {
        capturedByWhite := capturedByWhite + [p];
        materialAdvantage := materialAdvantage + PieceValue(p.kind);
      } else if capturingPlayer == Black {
        capturedByBlack := capturedByBlack + [p];
        materialAdvantage := materialAdvantage - PieceValue(p.kind);
      }
      assert State() == Add(old(State()), capturedPiece, capturingPlayer);
    }

    method Reset()
      modifies this
      ensures Valid() && State() == Empty
    {
      capturedByWhite := [];
      capturedByBlack := [];
      materialAdvantage := 0;
    }
  }
}
