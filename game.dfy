/**
 * The turn state machine of a chess game (ChessLogic/GameState.cs).
 *
 * The board, its moves and its squares are the type parameters `B`, `M` and
 * `P`; what the game asks of them is the `Rules` record of functions. Chess
 * geometry, move execution and check detection are therefore uninterpreted:
 * everything proved here holds for every board implementation.
 */
module Game {
  import opened Options
  import opened Players
  import opened Results
  import opened Pieces
  import opened Sequences
  import CapturedPieces
  import Timer

  /** The board, move and state-key operations the game state calls. */
  datatype Rules<!B, !M, !P> = Rules(
    at: (B, P) -> Option<Piece>,               // the piece on a square, `None` when the square is empty
    pieceMoves: (B, P) -> seq<M>,              // the candidate moves of the piece on a square
    piecePositionsFor: (B, Player) -> seq<P>,  // the squares holding one side's pieces
    isLegal: (M, B) -> bool,                   // the candidate does not leave its mover in check
    toPos: M -> P,                             // a move's destination square
    execute: (M, B) -> (B, bool),              // the board after the move; true for a capture or pawn move
    setPawnSkip: (B, Player, Option<P>) -> B,  // records or clears a side's en-passant square
    isInCheck: (B, Player) -> bool,
    insufficientMaterial: B -> bool,
    stateKey: (Player, B) -> string            // the repetition key of a side to move and a board
  )

  /** The piece `MakeMove` hands to the tracker: an opposing piece on the destination square. */
  function CapturedBy<B, M, P>(rules: Rules<B, M, P>, board: B, move: M, mover: Player): (c: Option<Piece>)
    ensures c.Some? <==> rules.at(board, rules.toPos(move)).Some? && rules.at(board, rules.toPos(move)).value.color != mover
    ensures c.Some? ==> c == rules.at(board, rules.toPos(move))
  {
    var target := rules.at(board, rules.toPos(move));
    if target.Some? && target.value.color != mover then target else Option.None
  }

  // ----- Repetition history -----

  /** One occurrence of `key` added to a history of occurrence counts. */
  function Record(history: map<string, int>, key: string): (h: map<string, int>)
    ensures key in h && h[key] == (if key in history then history[key] + 1 else 1)
    ensures forall k :: k in h && k != key ==> k in history && h[k] == history[k]
    ensures forall k :: k in history ==> k in h
  {
    history[key := if key in history then history[key] + 1 else 1]
  }

  /** How often `key` occurs in `keys`. */
  function Count(keys: seq<string>, key: string): nat {
    if keys == [] then 0
    else Count(keys[..|keys| - 1], key) + (if keys[|keys| - 1] == key then 1 else 0)
  }

  /** The history built by recording `keys` one after the other into an empty history. */
  function Occurrences(keys: seq<string>): map<string, int> {
    if keys == [] then map[]
    else Record(Occurrences(keys[..|keys| - 1]), keys[|keys| - 1])
  }

  /** The history holds exactly the recorded keys, each with the number of times it was recorded. */
  lemma {:induction false} OccurrencesCount(keys: seq<string>, key: string)
    ensures key in Occurrences(keys) <==> key in keys
    ensures key in Occurrences(keys) ==> Occurrences(keys)[key] == Count(keys, key) >= 1
    ensures key !in keys ==> Count(keys, key) == 0
  {
    if keys != [] {
      var prefix, last := keys[..|keys| - 1], keys[|keys| - 1];
      OccurrencesCount(prefix, key);
      assert keys == prefix + [last];
      assert key in keys <==> key in prefix || key == last;
    }
  }

  // ----- End-of-game classification -----

  /** The facts `CheckForGameOver` looks at, for the side to move. */
  datatype EndConditions = EndConditions(
    timedOut: bool,
    timeLoser: Player,
    noLegalMoves: bool,
    inCheck: bool,
    insufficientMaterial: bool,
    fiftyMoves: bool,
    threefold: bool)

  /** One rule of the priority list: when `holds`, the game ends with `outcome`. */
  datatype EndRule = EndRule(holds: bool, outcome: Result)

  /** The end-of-game rules in the order they are tried. */
  function PriorityOrder(c: EndConditions, side: Player): seq<EndRule> {
    [ EndRule(c.timedOut, Win(Opponent(c.timeLoser), TimeOut)),
      EndRule(c.noLegalMoves && c.inCheck, Win(Opponent(side), Checkmate)),
      EndRule(c.noLegalMoves && !c.inCheck, Draw(Stalemate)),
      EndRule(c.insufficientMaterial, Draw(InsufficientMaterial)),
      EndRule(c.fiftyMoves, Draw(EndReason.FiftyMoveRule)),
      EndRule(c.threefold, Draw(EndReason.ThreefoldRepetition)) ]
  }

  /** The outcome of the first rule that holds; `None` when none does. */
  function FirstSatisfied(rules: seq<EndRule>): (r: Option<Result>)
    ensures r.None? <==> forall i :: 0 <= i < |rules| ==> !rules[i].holds
    ensures r.Some? ==> exists i :: (0 <= i < |rules| && rules[i].holds && rules[i].outcome == r.value &&
                                     forall j :: 0 <= j < i ==> !rules[j].holds)
  {
    if rules == [] then Option.None
    else if rules[0].holds then Some(rules[0].outcome)
    else
      var r := FirstSatisfied(rules[1..]);
      assert forall i :: 1 <= i < |rules| ==> rules[i] == rules[1..][i - 1];
      r
  }

  /**
   * The cascade `CheckForGameOver` runs once the timer has been consulted:
   * the first rule of `PriorityOrder` that holds decides the result.
   */
  function Verdict(c: EndConditions, side: Player): (r: Option<Result>)
    ensures r.None? <==> !c.timedOut && !c.noLegalMoves && !c.insufficientMaterial && !c.fiftyMoves && !c.threefold
  {
    if c.timedOut then Some(Win(Opponent(c.timeLoser), TimeOut))
    else if c.noLegalMoves then
      if c.inCheck then Some(Win(Opponent(side), Checkmate)) else Some(Draw(Stalemate))
    else if c.insufficientMaterial then Some(Draw(InsufficientMaterial))
    else if c.fiftyMoves then Some(Draw(EndReason.FiftyMoveRule))
    else if c.threefold then Some(Draw(EndReason.ThreefoldRepetition))
    else Option.None
  }

  lemma FirstSatisfiedStep(first: EndRule, rest: seq<EndRule>)
    ensures FirstSatisfied([first] + rest) == if first.holds then Some(first.outcome) else FirstSatisfied(rest)
  {
  }

  /** The cascade decides exactly what the priority list decides. */
  lemma VerdictFollowsPriority(c: EndConditions, side: Player)
    ensures Verdict(c, side) == FirstSatisfied(PriorityOrder(c, side))
  {
    var o := PriorityOrder(c, side);
    FirstSatisfiedStep(o[5], []);
    FirstSatisfiedStep(o[4], [o[5]]);
    FirstSatisfiedStep(o[3], [o[4], o[5]]);
    FirstSatisfiedStep(o[2], [o[3], o[4], o[5]]);
    FirstSatisfiedStep(o[1], [o[2], o[3], o[4], o[5]]);
    FirstSatisfiedStep(o[0], [o[1], o[2], o[3], o[4], o[5]]);
    assert o == [o[0]] + [o[1], o[2], o[3], o[4], o[5]];
  }

  // ----- Move lists -----

  /** `pos` holds a piece of `side`. */
  predicate OwnPieceOn<B, M, P>(rules: Rules<B, M, P>, board: B, side: Player, pos: P) {
    rules.at(board, pos).Some? && rules.at(board, pos).value.color == side
  }

  /**
   * The legal moves of the piece on `pos` when `side` is to move: none unless
   * the piece is the mover's, and otherwise exactly its candidates that pass
   * the legality test.
   */
  function LegalMovesForPiece<B, M, P>(rules: Rules<B, M, P>, board: B, side: Player, pos: P): (moves: seq<M>)
    ensures !OwnPieceOn(rules, board, side, pos) ==> moves == []
    ensures forall k :: 0 <= k < |moves| ==>
      OwnPieceOn(rules, board, side, pos) && moves[k] in rules.pieceMoves(board, pos) && rules.isLegal(moves[k], board)
    ensures var candidates := rules.pieceMoves(board, pos);
      OwnPieceOn(rules, board, side, pos) ==>
        forall i :: 0 <= i < |candidates| && rules.isLegal(candidates[i], board) ==> candidates[i] in moves
  {
    if !OwnPieceOn(rules, board, side, pos) then []
    else Filter(m => rules.isLegal(m, board), rules.pieceMoves(board, pos))
  }

  /** The candidates of every piece of `player` that pass the legality test. */
  function AllLegalMovesFor<B, M, P>(rules: Rules<B, M, P>, board: B, player: Player): (moves: seq<M>)
    ensures var ps := rules.piecePositionsFor(board, player);
      forall k :: 0 <= k < |moves| ==>
        rules.isLegal(moves[k], board) &&
        exists i :: 0 <= i < |ps| && moves[k] in rules.pieceMoves(board, ps[i])
    ensures var ps := rules.piecePositionsFor(board, player);
      forall i, j :: 0 <= i < |ps| && 0 <= j < |rules.pieceMoves(board, ps[i])| &&
        rules.isLegal(rules.pieceMoves(board, ps[i])[j], board)
        ==> rules.pieceMoves(board, ps[i])[j] in moves
  {
    var ps := rules.piecePositionsFor(board, player);
    var candidates := FlatMap(pos => rules.pieceMoves(board, pos), ps);
    var moves := Filter(m => rules.isLegal(m, board), candidates);
    assert forall i, j :: (0 <= i < |ps| && 0 <= j < |rules.pieceMoves(board, ps[i])| &&
        rules.isLegal(rules.pieceMoves(board, ps[i])[j], board)
        ==> rules.pieceMoves(board, ps[i])[j] in moves) by {
      forall i, j | 0 <= i < |ps| && 0 <= j < |rules.pieceMoves(board, ps[i])| &&
          rules.isLegal(rules.pieceMoves(board, ps[i])[j], board)
        ensures rules.pieceMoves(board, ps[i])[j] in moves
      {
        var m := rules.pieceMoves(board, ps[i])[j];
        FlatMapHas(pos => rules.pieceMoves(board, pos), ps, ps[i], m);
        FilterHas(m => rules.isLegal(m, board), candidates, m);
      }
    }
    moves
  }

  /** Every legal move of one of the mover's pieces is among all of the mover's legal moves. */
  lemma PieceMovesAmongAll<B, M, P>(rules: Rules<B, M, P>, board: B, side: Player, pos: P)
    requires pos in rules.piecePositionsFor(board, side)
    ensures var all := AllLegalMovesFor(rules, board, side);
      forall k :: 0 <= k < |LegalMovesForPiece(rules, board, side, pos)| ==> LegalMovesForPiece(rules, board, side, pos)[k] in all
  {
  }

  // ----- The game as a value -----

  /**
   * What a `GameState` holds, with the clock and the capture tracker given by
   * their states: the board, the side to move, the result, the ply counter,
   * the current state key and its history, whether the clock is on, the
   * clock's readings and increment, and the captures.
   */
  datatype View<B> = View(
    board: B,
    player: Player,
    result: Option<Result>,
    counter: nat,
    key: string,
    history: map<string, int>,
    timerOn: bool,
    clocks: Timer.Clocks,
    increment: int,
    tally: CapturedPieces.Tally)

  /** A new game: `player` to move on `board`, its key recorded once, no captures and no result. */
  function Opening<B, M, P>(rules: Rules<B, M, P>, player: Player, board: B,
                            clocks: Timer.Clocks, increment: int, timerOn: bool): View<B>
  {
    var key := rules.stateKey(player, board);
    View(board, player, Option.None, 0, key, map[key := 1], timerOn, clocks, increment, CapturedPieces.Empty)
  }

  /** The capture report that opens `MakeMove`: an opposing piece on the destination goes to the mover's tally. */
  function Captured<B, M, P>(rules: Rules<B, M, P>, v: View<B>, move: M): View<B> {
    var captured := CapturedBy(rules, v.board, move, v.player);
    if captured.Some? then v.(tally := CapturedPieces.Add(v.tally, captured, v.player)) else v
  }

  /** Whether `move`, played by the side to move, is a capture or a pawn move. */
  function Progress<B, M, P>(rules: Rules<B, M, P>, v: View<B>, move: M): bool {
    rules.execute(move, rules.setPawnSkip(v.board, v.player, Option.None)).1
  }

  /**
   * The move on the board, after clearing the mover's en-passant square; a
   * capture or pawn move restarts the ply counter and empties the history,
   * any other move counts one more ply.
   */
  function Moved<B, M, P>(rules: Rules<B, M, P>, v: View<B>, move: M): View<B> {
    var (after, progress) := rules.execute(move, rules.setPawnSkip(v.board, v.player, Option.None));
    if progress then v.(board := after, counter := 0, history := map[])
    else v.(board := after, counter := v.counter + 1)
  }

  /** The turn passes to the opponent and, when the clock is on, the clock is switched. */
  function Turned<B>(v: View<B>, elapsed: int): View<B> {
    v.(player := Opponent(v.player),
       clocks := if v.timerOn then Timer.Switch(v.clocks, v.increment, elapsed) else v.clocks)
  }

  /** The key of the side to move and the board becomes the current key and is recorded once more. */
  function Recorded<B, M, P>(rules: Rules<B, M, P>, v: View<B>): View<B> {
    var key := rules.stateKey(v.player, v.board);
    v.(key := key, history := Record(v.history, key))
  }

  /** Everything `MakeMove` does before it classifies the game end. */
  function Played<B, M, P>(rules: Rules<B, M, P>, v: View<B>, move: M, elapsed: int): View<B> {
    Recorded(rules, Turned(Moved(rules, Captured(rules, v, move), move), elapsed))
  }

  /** Fifty full moves each: the ply counter halved, rounding down, is 50. */
  function FiftyMoves(counter: nat): (r: bool)
    ensures r <==> counter == 100 || counter == 101
  {
    counter / 2 == 50
  }

  /** The current key has been recorded three times. */
  function Threefold(history: map<string, int>, key: string): (r: bool)
    ensures r <==> key in history && history[key] == 3
  {
    key in history && history[key] == 3
  }

  /** The end conditions for the side to move, given the clock's verdict. */
  function Conditions<B, M, P>(rules: Rules<B, M, P>, v: View<B>, timedOut: bool, timeLoser: Player): EndConditions {
    EndConditions(timedOut, timeLoser,
      |AllLegalMovesFor(rules, v.board, v.player)| == 0,
      rules.isInCheck(v.board, v.player), rules.insufficientMaterial(v.board),
      FiftyMoves(v.counter), Threefold(v.history, v.key))
  }

  /** The board and repetition tests of `CheckForGameOver`; when none holds the result is kept. */
  function Classified<B, M, P>(rules: Rules<B, M, P>, v: View<B>): View<B> {
    var verdict := Verdict(Conditions(rules, v, false, Player.None), v.player);
    if verdict.Some? then v.(result := verdict) else v
  }

  /**
   * `CheckForGameOver`: with the clock on, the clock is charged first and a
   * flag fall ends the game at once; otherwise the board and repetition tests
   * decide.
   */
  function Checked<B, M, P>(rules: Rules<B, M, P>, v: View<B>, elapsed: int): View<B> {
    if v.timerOn then
      var clocks := Timer.Charge(v.clocks, elapsed);
      var (timedOut, loser) := Timer.TimeOut(clocks);
      if timedOut then v.(clocks := clocks, result := Some(Win(Opponent(loser), TimeOut)))
      else Classified(rules, v.(clocks := clocks))
    else Classified(rules, v)
  }

  // ----- Properties of a move -----

  /**
   * One move: the mover's capture is tallied, the board is the executed
   * move's, the counter restarts exactly on a capture or pawn move, the turn
   * passes, the clock is switched only when on, and the new key is recorded
   * on top of the history (an empty one after a capture or pawn move); the
   * result, the clock setting and the increment are untouched.
   */
  lemma PlayedEffect<B, M, P>(rules: Rules<B, M, P>, v: View<B>, move: M, elapsed: int)
    ensures var w := Played(rules, v, move, elapsed);
      var captured := CapturedBy(rules, v.board, move, v.player);
      var (after, progress) := rules.execute(move, rules.setPawnSkip(v.board, v.player, Option.None));
      && w.tally == (if captured.Some? then CapturedPieces.Add(v.tally, captured, v.player) else v.tally)
      && w.board == after
      && w.counter == (if progress then 0 else v.counter + 1)
      && w.player == Opponent(v.player)
      && w.clocks == (if v.timerOn then Timer.Switch(v.clocks, v.increment, elapsed) else v.clocks)
      && w.key == rules.stateKey(Opponent(v.player), after)
      && w.history == Record(if progress then map[] else v.history, w.key)
      && w.result == v.result && w.timerOn == v.timerOn && w.increment == v.increment
  {
  }

  /** The keys a history of `v` stands for after `move`: the old ones unless the move makes progress, then the new key. */
  ghost function PlayedPositions<B, M, P>(rules: Rules<B, M, P>, v: View<B>, move: M, elapsed: int,
                                          positions: seq<string>): seq<string>
  {
    (if Progress(rules, v, move) then [] else positions) + [Played(rules, v, move, elapsed).key]
  }

  /**
   * The history invariant: the history counts exactly the keys recorded since
   * the last capture or pawn move, the last of which is the current key, and
   * the counter is the number of plies since then.
   */
  ghost predicate Consistent<B>(v: View<B>, positions: seq<string>) {
    |positions| == v.counter + 1
    && v.key == positions[|positions| - 1]
    && v.history == Occurrences(positions)
  }

  /** A new game satisfies the history invariant with its starting key as the only recorded key. */
  lemma OpeningConsistent<B, M, P>(rules: Rules<B, M, P>, player: Player, board: B,
                                   clocks: Timer.Clocks, increment: int, timerOn: bool)
    ensures var v := Opening(rules, player, board, clocks, increment, timerOn);
      Consistent(v, [v.key]) && v.result.None? && v.counter == 0 && v.history == map[v.key := 1]
  {
  }

  /** Under the history invariant the current key is recorded, with a positive count. */
  lemma CurrentKeyRecorded<B>(v: View<B>, positions: seq<string>)
    requires Consistent(v, positions)
    ensures v.key in v.history && v.history[v.key] >= 1
  {
    OccurrencesCount(positions, v.key);
  }

  /** A move keeps the history invariant. */
  lemma PlayedKeepsConsistent<B, M, P>(rules: Rules<B, M, P>, v: View<B>, move: M, elapsed: int,
                                       positions: seq<string>)
    requires Consistent(v, positions)
    ensures Consistent(Played(rules, v, move, elapsed), PlayedPositions(rules, v, move, elapsed, positions))
  {
  }

  /** A move keeps the tally's advantage equal to the difference of the captured values. */
  lemma PlayedKeepsBalanced<B, M, P>(rules: Rules<B, M, P>, v: View<B>, move: M, elapsed: int)
    requires CapturedPieces.Balanced(v.tally)
    ensures CapturedPieces.Balanced(Played(rules, v, move, elapsed).tally)
  {
  }

  /** Under the history invariant, the threefold test holds exactly when the current key was recorded three times. */
  lemma ThreefoldCounts<B>(v: View<B>, positions: seq<string>)
    requires Consistent(v, positions)
    ensures Threefold(v.history, v.key) <==> Count(positions, v.key) == 3
  {
    OccurrencesCount(positions, v.key);
  }

  // ----- Properties of the end-of-game check -----

  /**
   * The check charges the clock when it is on and then sets the result to
   * the outcome of the first rule of `PriorityOrder` that holds, keeping the
   * old result when none does; nothing else changes.
   */
  lemma CheckedFollowsPriority<B, M, P>(rules: Rules<B, M, P>, v: View<B>, elapsed: int)
    ensures var clocks := if v.timerOn then Timer.Charge(v.clocks, elapsed) else v.clocks;
      var (timedOut, loser) := Timer.TimeOut(clocks);
      var first := FirstSatisfied(PriorityOrder(Conditions(rules, v, v.timerOn && timedOut, loser), v.player));
      Checked(rules, v, elapsed) == v.(clocks := clocks, result := if first.Some? then first else v.result)
  {
    var clocks := if v.timerOn then Timer.Charge(v.clocks, elapsed) else v.clocks;
    var (timedOut, loser) := Timer.TimeOut(clocks);
    VerdictFollowsPriority(Conditions(rules, v, v.timerOn && timedOut, loser), v.player);
    if !(v.timerOn && timedOut) {
      VerdictFollowsPriority(Conditions(rules, v.(clocks := clocks), false, Player.None), v.player);
    }
  }

  /** A finished game stays finished: the check never clears a result. */
  lemma CheckedKeepsResult<B, M, P>(rules: Rules<B, M, P>, v: View<B>, elapsed: int)
    requires v.result.Some?
    ensures Checked(rules, v, elapsed).result.Some?
  {
  }

  /**
   * A side to move without a legal move and with its flag up has lost to
   * checkmate when in check and drawn by stalemate otherwise.
   */
  lemma NoLegalMovesEndsGame<B, M, P>(rules: Rules<B, M, P>, v: View<B>, elapsed: int)
    requires AllLegalMovesFor(rules, v.board, v.player) == []
    requires !v.timerOn || !Timer.TimeOut(Timer.Charge(v.clocks, elapsed)).0
    ensures var r := Checked(rules, v, elapsed).result;
      r.Some? &&
      (if rules.isInCheck(v.board, v.player) then r.value == Win(Opponent(v.player), Checkmate)
       else r.value == Draw(Stalemate))
  {
  }

  /** With the clock on, a flag that is down after charging ends the game for the flagged side, whatever the board says. */
  lemma FlagFallEndsGame<B, M, P>(rules: Rules<B, M, P>, v: View<B>, elapsed: int)
    requires v.timerOn
    ensures var clocks := Timer.Charge(v.clocks, elapsed);
      var (timedOut, loser) := Timer.TimeOut(clocks);
      timedOut ==> Checked(rules, v, elapsed).result == Some(Win(Opponent(loser), TimeOut))
  {
  }

  // ----- The game state -----

  class GameState<B, M, P> {
    const rules: Rules<B, M, P>
    var board: B
    var currentPlayer: Player
    var result: Option<Result>
    var noCaptureOrPawnMoves: nat
    var stateString: string
    var stateHistory: map<string, int>
    var timer: Timer.ChessTimer
    const capturedPieces: CapturedPieces.CapturedPiecesTracker
    var timerEnabled: bool

    /** The state keys recorded since the last capture or pawn move, oldest first. */
    ghost var positions: seq<string>

    /** The state as a value. */
    function Snapshot(): View<B>
      reads this, timer, capturedPieces
    {
      View(board, currentPlayer, result, noCaptureOrPawnMoves, stateString, stateHistory,
           timerEnabled, timer.State(), timer.increment, capturedPieces.State())
    }

    /** The history invariant of `Consistent`, on the fields, and a balanced tracker. */
    ghost predicate Valid()
      reads this`positions, this`noCaptureOrPawnMoves, this`stateString, this`stateHistory, capturedPieces
    {
      |positions| == noCaptureOrPawnMoves + 1
      && stateString == positions[|positions| - 1]
      && stateHistory == Occurrences(positions)
      && capturedPieces.Valid()
    }

    /** A game with no clock in use; the clock it carries reads 600 seconds a side. */
    constructor (player: Player, board: B, rules: Rules<B, M, P>)
      ensures Valid() && this.rules == rules && positions == [stateString]
      ensures fresh(timer) && fresh(capturedPieces) && timer.initialTime == 600
      ensures Snapshot() == Opening(rules, player, board, Timer.ResetClocks(600), 0, false)
    {
      this.rules := rules;
      this.board := board;
      currentPlayer := player;
      result := Option.None;
      noCaptureOrPawnMoves := 0;
      var key := rules.stateKey(player, board);
      stateString := key;
      stateHistory := map[key := 1];
      positions := [key];
      timer := new Timer.ChessTimer(600);
      capturedPieces := new CapturedPieces.CapturedPiecesTracker();
      timerEnabled := false;
    }

    /** A game with a clock of `timeInSeconds` a side and `incrementInSeconds` a move. */
    constructor WithTimeControl(player: Player, board: B, rules: Rules<B, M, P>,
                                timeInSeconds: int, incrementInSeconds: int := 0)
      ensures Valid() && this.rules == rules && positions == [stateString]
      ensures fresh(timer) && fresh(capturedPieces) && timer.initialTime == timeInSeconds
      ensures Snapshot() == Opening(rules, player, board, Timer.ResetClocks(timeInSeconds), incrementInSeconds, true)
    {
      this.rules := rules;
      this.board := board;
      currentPlayer := player;
      result := Option.None;
      noCaptureOrPawnMoves := 0;
      var key := rules.stateKey(player, board);
      stateString := key;
      stateHistory := map[key := 1];
      positions := [key];
      timer := new Timer.ChessTimer(timeInSeconds, incrementInSeconds);
      capturedPieces := new CapturedPieces.CapturedPiecesTracker();
      timerEnabled := true;
    }

    function IsGameOver(): (over: bool)
      reads this`result
      ensures over <==> result.Some?
    {
      result != Option.None
    }

    /** Hands an opposing piece standing on the destination square to the tracker. */
    method ReportCapture(move: M)
      requires capturedPieces.Valid()
      modifies capturedPieces
      ensures capturedPieces.Valid()
      ensures Snapshot() == Captured(rules, old(Snapshot()), move)
    {
      var captured := CapturedBy(rules, board, move, currentPlayer);
      if captured.Some? {
        capturedPieces.AddCapturedPiece(captured, currentPlayer);
      }
    }

    /**
     * Clears the mover's en-passant square, executes the move and counts the
     * ply, restarting the counter and the history after a capture or pawn move.
     */
    method ExecuteMove(move: M)
      requires |positions| == noCaptureOrPawnMoves + 1 && stateHistory == Occurrences(positions)
      modifies this`board, this`noCaptureOrPawnMoves, this`stateHistory, this`positions
      ensures Snapshot() == Moved(rules, old(Snapshot()), move)
      ensures positions == if Progress(rules, old(Snapshot()), move) then [] else old(positions)
      ensures |positions| == noCaptureOrPawnMoves && stateHistory == Occurrences(positions)
    {
      board := rules.setPawnSkip(board, currentPlayer, Option.None);
      var (after, captureOrPawn) := rules.execute(move, board);
      board := after;
      if captureOrPawn {
        noCaptureOrPawnMoves := 0;
        stateHistory := map[];
        positions := [];
      } else {
        noCaptureOrPawnMoves := noCaptureOrPawnMoves + 1;
      }
    }

    /** Passes the turn and, when the clock is in use, switches it. */
    method PassTurn(elapsed: int)
      modifies this`currentPlayer, timer
      ensures Snapshot() == Turned(old(Snapshot()), elapsed)
    {
      currentPlayer := Opponent(currentPlayer);
      if timerEnabled {
        timer.SwitchClock(elapsed);
      }
    }

    /** Records the key of the new position in the history. */
    method UpdateStateString()
      requires stateHistory == Occurrences(positions)
      modifies this`stateString, this`stateHistory, this`positions
      ensures Snapshot() == Recorded(rules, old(Snapshot()))
      ensures positions == old(positions) + [stateString]
      ensures stateHistory == Occurrences(positions)
    {
      stateString := rules.stateKey(currentPlayer, board);
      if stateString !in stateHistory {
        stateHistory := stateHistory[stateString := 1];
      } else {
        stateHistory := stateHistory[stateString := stateHistory[stateString] + 1];
      }
      positions := positions + [stateString];
      assert positions[..|positions| - 1] == old(positions);
    }

    /** The bookkeeping part of `MakeMove`, everything before the end-of-game check. */
    method PlayMove(move: M, elapsedAtSwitch: int)
      requires Valid()
      modifies this`board, this`noCaptureOrPawnMoves, this`stateHistory, this`positions,
        this`currentPlayer, this`stateString, timer, capturedPieces
      ensures Valid()
      ensures Snapshot() == Played(rules, old(Snapshot()), move, elapsedAtSwitch)
    {
      ReportCapture(move);
      ExecuteMove(move);
      PassTurn(elapsedAtSwitch);
      UpdateStateString();
    }

    /** The board and repetition tests of `CheckForGameOver`, in order. */
    method ClassifyPosition()
      modifies this`result
      ensures Snapshot() == Classified(rules, old(Snapshot()))
    {
      if |AllLegalMovesFor(rules, board, currentPlayer)| == 0 {
        if rules.isInCheck(board, currentPlayer) {
          result := Some(Win(Opponent(currentPlayer), Checkmate));
        } else {
          result := Some(Draw(Stalemate));
        }
      } else if rules.insufficientMaterial(board) {
        result := Some(Draw(InsufficientMaterial));
      } else if FiftyMoves(noCaptureOrPawnMoves) {
        result := Some(Draw(EndReason.FiftyMoveRule));
      } else if Threefold(stateHistory, stateString) {
        result := Some(Draw(EndReason.ThreefoldRepetition));
      }
    }

    /**
     * With the clock in use, charges it and ends the game on a fallen flag;
     * otherwise, or when no flag fell, runs the board and repetition tests.
     */
    method CheckForGameOver(elapsed: int)
      requires Valid()
      modifies this`result, timer
      ensures Valid()
      ensures Snapshot() == Checked(rules, old(Snapshot()), elapsed)
    {
      if timerEnabled {
        var timedOut, loser := timer.IsTimeOut(elapsed);
        if timedOut {
          result := Some(Win(Opponent(loser), TimeOut));
          return;
        }
      }
      ClassifyPosition();
    }

    /**
     * Plays `move` for the side to move and then classifies the game end.
     * `elapsedAtSwitch` and `elapsedAtCheck` are the whole seconds the clock
     * has run when it is switched and when it is then asked for a time-out.
     */
    method MakeMove(move: M, elapsedAtSwitch: int, elapsedAtCheck: int)
      requires Valid()
      modifies this`board, this`noCaptureOrPawnMoves, this`stateHistory, this`positions,
        this`currentPlayer, this`stateString, this`result, timer, capturedPieces
      ensures Valid()
      ensures Snapshot() == Checked(rules, Played(rules, old(Snapshot()), move, elapsedAtSwitch), elapsedAtCheck)
    {
      PlayMove(move, elapsedAtSwitch);
      CheckForGameOver(elapsedAtCheck);
    }

    method StartGame()
      modifies timer
      ensures timer.State() == if timerEnabled then Timer.StartClock(old(timer.State()), currentPlayer) else old(timer.State())
    {
      if timerEnabled {
        timer.Start(currentPlayer);
      }
    }

    method PauseGame(elapsed: int)
      modifies timer
      ensures timer.State() == if timerEnabled then Timer.PauseClocks(old(timer.State()), elapsed) else old(timer.State())
    {
      if timerEnabled {
        timer.Pause(elapsed);
      }
    }

    method ResumeGame()
      modifies timer
      ensures timer.State() == if timerEnabled then Timer.ResumeClocks(old(timer.State())) else old(timer.State())
    {
      if timerEnabled {
        timer.Resume();
      }
    }

    /** Replaces the clock by a fresh, reset one and turns the clock on. */
    method SetTimeControl(timeInSeconds: int, incrementInSeconds: int := 0)
      modifies this`timer, this`timerEnabled
      ensures fresh(timer) && timer.initialTime == timeInSeconds && timer.increment == incrementInSeconds
      ensures timer.State() == Timer.ResetClocks(timeInSeconds) && timerEnabled
    {
      timer := new Timer.ChessTimer(timeInSeconds, incrementInSeconds);
      timerEnabled := true;
    }
  }
}
