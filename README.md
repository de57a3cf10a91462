# Chess game-state bookkeeping, modelled and proved in Dafny

This project models the bookkeeping core of a desktop chess program:

- `GameState` plays a move. It reports a capture to the captured-pieces tracker, clears the mover's en-passant square and executes the move. It then counts plies without a capture or pawn move, flips the side to move, switches the game clock, records the new position key in a repetition history, and finally classifies the end of the game.
- `ChessTimer` is the two-sided game clock with an increment.
- `CapturedPiecesTracker` keeps the two capture lists and the running material balance.
- `Player.Opponent` and the `Result` factories are the small helpers the three classes above use.

Move generation is not part of this model. The board, a move and a square are the type parameters `B`, `M` and `P` of `Game.GameState`. Every board and move operation the game calls is a field of the `Game.Rules` record: the piece on a square, a piece's candidate moves, the squares of a side, the legality test, a move's destination, move execution, the en-passant square, check detection, the insufficient-material test and the repetition key. So every property below holds for every board implementation.

Files, one module each:

| file | module | models |
|---|---|---|
| `options.dfy` | `Options` | `Option<T>`, the null reference |
| `players.dfy` | `Players` | `Player`, `Opponent` |
| `results.dfy` | `Results` | `EndReason`, `Result`, `Win`, `Draw` |
| `pieces.dfy` | `Pieces` | `PieceType`, a piece's type and colour |
| `sequences.dfy` | `Sequences` | `Where` and `SelectMany` on sequences |
| `captured.dfy` | `CapturedPieces` | the piece values and the tracker class |
| `timer.dfy` | `Timer` | the clock's state functions and the `ChessTimer` class |
| `game.dfy` | `Game` | move lists, the game as a value (`View`), its step functions and the `GameState` class |

Each class keeps the source's fields and updates them in place. Each method's contract ties the new state to a pure function of the old one. For `ChessTimer` that is `State() == Switch(old(State()), increment, elapsed)`. For `CapturedPiecesTracker` it is `State() == Add(old(State()), …)`. For `GameState` it is `Snapshot() == Played(rules, old(Snapshot()), move, elapsed)`. The lemmas then prove the source's promises about those functions:

- the priority order of the end-of-game cascade;
- the history invariant;
- the material balance;
- that no clock becomes negative.

Wall-clock readings are parameters: `elapsed` is the whole number of seconds the clock would read since its last timestamp. `MakeMove` reads the clock twice, once when it switches the clock and once when `CheckForGameOver` asks for a time-out. So it takes two such parameters.

## Model

| member | source | states |
|---|---|---|
| Players.Opponent | ChessLogic/Player.cs:12-20 | White and Black swap, in both directions of an iff; `None` maps to `None` |
| Players.OpponentInvolution | ChessLogic/Player.cs:12-20 | taking the opponent twice gives back every player, `None` included |
| Players.OpponentOfSide | ChessLogic/Player.cs:16-17 | a real side's opponent is a real side and differs from it |
| Results.Win | ChessLogic/Result.cs:14-23 | the result holds the given winner and reason unchanged |
| Results.Draw | ChessLogic/Result.cs:25-28 | the result has no winner and the given reason |
| Results.WinForNobodyIsDraw | ChessLogic/Result.cs:14-28 | a "win" for `None` equals the draw with the same reason |
| CapturedPieces.PieceValue | ChessLogic/CapturedPiecesTracker.cs:12-20 | Pawn 1, Knight and Bishop 3, Rook 5, Queen 9, King 0, each as an iff |
| CapturedPieces.Total | ChessLogic/CapturedPiecesTracker.cs:12-20 | the summed table value of a list of pieces, the quantity the balance invariant is stated in; it is at most 9 per piece, the Queen's value |
| CapturedPieces.TotalConcat | ChessLogic/CapturedPiecesTracker.cs:34-40 | the value of two lists appended is the sum of their values; `Add` uses it to keep the balance invariant when a capture is appended |
| CapturedPieces.Add | ChessLogic/CapturedPiecesTracker.cs:27-44 | no piece or no capturer: nothing changes; White's capture appends to White's list only and adds the piece's value to the balance, Black's appends to Black's list only and subtracts it; the balance invariant is kept |
| CapturedPieces.AddAllGrowsBalanced | ChessLogic/CapturedPiecesTracker.cs:27-44 | between resets both lists only grow at the end, by at most one piece a call, and the balance stays White's captured value minus Black's |
| CapturedPieces.CapturedPiecesTracker.constructor | ChessLogic/CapturedPiecesTracker.cs:22-25 | a new tracker is empty with balance 0, and balanced |
| CapturedPieces.CapturedPiecesTracker.AddCapturedPiece | ChessLogic/CapturedPiecesTracker.cs:27-44 | the new state is `Add` of the old one, and the balance invariant is kept |
| CapturedPieces.CapturedPiecesTracker.Reset | ChessLogic/CapturedPiecesTracker.cs:46-51 | both lists empty and balance 0 |
| Timer.ResetClocks | ChessLogic/ChessTimer.cs:34-40 | both clocks at the initial time, no active clock, paused |
| Timer.Charge | ChessLogic/ChessTimer.cs:91-111 | only a running side's clock changes, to max(0, old - elapsed); paused or no active clock: nothing changes |
| Timer.StartClock | ChessLogic/ChessTimer.cs:42-50 | `None` changes nothing; a side becomes active and the clock runs, times untouched |
| Timer.PauseClocks | ChessLogic/ChessTimer.cs:52-59 | a running clock is charged and then paused; a paused one is unchanged |
| Timer.ResumeClocks | ChessLogic/ChessTimer.cs:61-68 | unpauses exactly when paused with an active side; times and active side untouched |
| Timer.Switch | ChessLogic/ChessTimer.cs:70-89 | a running clock is charged, the side that ran gets the increment, the other side's clock runs with its time unchanged; paused: nothing changes |
| Timer.TimeOut | ChessLogic/ChessTimer.cs:113-131 | a time-out iff a clock is at or below zero; White is reported first, Black only when White still has time |
| Timer.Split | ChessLogic/ChessTimer.cs:133-138 | minutes times 60 plus seconds gives the time back; the remainder lies in [0, 60) for non-negative times and in (-60, 0] otherwise, as with C#'s truncating division |
| Timer.RunStaysSound | ChessLogic/ChessTimer.cs:26-131 | with a non-negative initial time and increment, no sequence of calls makes a clock negative or leaves the clock running with no side selected |
| Timer.IncrementHidesFlag | ChessLogic/ChessTimer.cs:70-89 | the increment is added after clamping at zero, so when the increment is positive and Black's clock is still above the next reading, White's flag that fell during White's move is not reported by the following time-out query |
| Timer.FlagShownWithoutIncrement | ChessLogic/ChessTimer.cs:70-89 | with a zero increment the same move leaves White's clock at zero, and the following time-out query reports White |
| Timer.ChessTimer.constructor | ChessLogic/ChessTimer.cs:26-32 | stores the initial time and the increment and ends in the reset state |
| Timer.ChessTimer.Reset | ChessLogic/ChessTimer.cs:34-40 | the new state is `ResetClocks` of the initial time |
| Timer.ChessTimer.Start | ChessLogic/ChessTimer.cs:42-50 | the new state is `StartClock` of the old one |
| Timer.ChessTimer.Pause | ChessLogic/ChessTimer.cs:52-59 | the new state is `PauseClocks` of the old one |
| Timer.ChessTimer.Resume | ChessLogic/ChessTimer.cs:61-68 | the new state is `ResumeClocks` of the old one |
| Timer.ChessTimer.SwitchClock | ChessLogic/ChessTimer.cs:70-89 | the new state is `Switch` of the old one with the timer's increment |
| Timer.ChessTimer.UpdateRemainingTime | ChessLogic/ChessTimer.cs:91-111 | the new state is `Charge` of the old one |
| Timer.ChessTimer.IsTimeOut | ChessLogic/ChessTimer.cs:113-131 | charges the clock, then returns `TimeOut` of the charged clocks |
| Timer.ChessTimer.FormattedTime | ChessLogic/ChessTimer.cs:133-138 | the minutes and seconds shown recombine to the side's remaining time, with seconds in [0, 60) when it is non-negative |
| Sequences.Filter | ChessLogic/GameState.cs:48 | exactly the elements that pass the test: no element is invented and none that passes is lost |
| Sequences.FlatMap | ChessLogic/GameState.cs:90-94 | every element comes from some input's list, and every input's list is included |
| Sequences.FilterConcat | ChessLogic/GameState.cs:48 | filtering distributes over concatenation, so the kept elements stay in their input order with their multiplicity |
| Sequences.FlatMapConcat | ChessLogic/GameState.cs:90-94 | flattening distributes over concatenation, so the lists appear in the order of their inputs |
| Game.CapturedBy | ChessLogic/GameState.cs:53-57 | a piece is handed to the tracker iff the destination holds a piece not of the mover, and it is that piece |
| Game.Record | ChessLogic/GameState.cs:147-159 | the new key's count goes up by one, or is 1 if the key is new; every other key keeps its count and none is added or lost |
| Game.OccurrencesCount | ChessLogic/GameState.cs:147-164 | the history built from a run of keys holds exactly those keys, each with its number of occurrences |
| Game.FirstSatisfied | ChessLogic/GameState.cs:99-134 | `None` iff no rule holds; otherwise the outcome of a rule that holds with none holding before it |
| Game.Verdict | ChessLogic/GameState.cs:99-134 | no result iff no time-out, some legal move, enough material, no fifty-move rule and no threefold repetition |
| Game.VerdictFollowsPriority | ChessLogic/GameState.cs:99-134 | the cascade equals the first rule that holds in the order time-out, checkmate, stalemate, insufficient material, fifty-move rule, threefold repetition |
| Game.LegalMovesForPiece | ChessLogic/GameState.cs:39-49 | nothing unless the square holds a piece of the side to move; otherwise exactly the piece's candidates that pass the legality test |
| Game.AllLegalMovesFor | ChessLogic/GameState.cs:88-97 | every move is legal and a candidate of one of the side's pieces, and every legal candidate of such a piece is included |
| Game.PieceMovesAmongAll | ChessLogic/GameState.cs:39-49 | the legal moves of one of the mover's pieces are among all of the mover's legal moves |
| Game.FiftyMoves | ChessLogic/GameState.cs:141-145 | holds iff the ply counter is 100 or 101 |
| Game.OpeningConsistent | ChessLogic/GameState.cs:19-30 | a new game has no result and a zero counter, and its history holds the starting key once, satisfying the history invariant |
| Game.PlayedEffect | ChessLogic/GameState.cs:51-84 | a move tallies the capture; it executes on the board with the en-passant square cleared; the counter restarts exactly after a capture or pawn move and otherwise rises by one; the turn passes; the clock switches only when in use; the new key is recorded over the old history, or over an empty one after progress; the result is untouched |
| Game.PlayedKeepsConsistent | ChessLogic/GameState.cs:64-84 | a move keeps the history invariant, the history counts exactly the keys since the last capture or pawn move |
| Game.PlayedKeepsBalanced | ChessLogic/GameState.cs:53-62 | a move keeps the tracker's balance invariant |
| Game.CurrentKeyRecorded | ChessLogic/GameState.cs:161-164 | under the history invariant the current key is in the history with a count of at least 1 |
| Game.Threefold | ChessLogic/GameState.cs:161-164 | the threefold test holds iff the current key is in the history with count exactly 3; `Game.ThreefoldCounts` relates this to the positions played |
| Game.ThreefoldCounts | ChessLogic/GameState.cs:161-164 | under the history invariant, the threefold test holds iff the current key occurred exactly three times since the last capture or pawn move |
| Game.CheckedFollowsPriority | ChessLogic/GameState.cs:99-134 | the check charges the clock when in use and sets the result to the first rule of the priority order that holds, keeping the old result when none does; nothing else changes |
| Game.CheckedKeepsResult | ChessLogic/GameState.cs:99-134 | the check never clears a result |
| Game.NoLegalMovesEndsGame | ChessLogic/GameState.cs:111-121 | with no flag fallen and no legal move, the side to move loses by checkmate when in check and draws by stalemate otherwise |
| Game.FlagFallEndsGame | ChessLogic/GameState.cs:101-108 | with the clock in use, a fallen flag wins for the opponent of the side whose flag fell, whatever the board says |
| Game.GameState.constructor | ChessLogic/GameState.cs:19-30 | the state is `Opening` with a reset 600-second clock that is not in use, fresh clock and tracker, invariant established |
| Game.GameState.WithTimeControl | ChessLogic/GameState.cs:32-37 | the state is `Opening` with a reset clock of the given time and increment, in use |
| Game.GameState.IsGameOver | ChessLogic/GameState.cs:136-139 | true iff there is a result |
| Game.GameState.ReportCapture | ChessLogic/GameState.cs:53-62 | the new state is `Captured` of the old one: an opposing piece on the destination goes to the mover's tally, and nothing else changes; the tracker stays balanced |
| Game.GameState.ExecuteMove | ChessLogic/GameState.cs:64-75 | the new state is `Moved` of the old one: the board is the executed move's with the mover's en-passant square cleared first; a capture or pawn move zeroes the counter and empties the history, any other move adds one ply |
| Game.GameState.PassTurn | ChessLogic/GameState.cs:77-82 | the new state is `Turned` of the old one: the opponent is to move, and the clock is switched only when it is in use |
| Game.GameState.UpdateStateString | ChessLogic/GameState.cs:147-159 | the new state is `Recorded` of the old one: the key of the side to move and the board becomes current and its count goes up by one (1 if new); the history stays equal to the occurrences of the recorded keys |
| Game.GameState.PlayMove | ChessLogic/GameState.cs:51-84 | the new state is `Played` of the old one, whose effect `Game.PlayedEffect` spells out, and the history and balance invariants are kept |
| Game.GameState.ClassifyPosition | ChessLogic/GameState.cs:111-133 | the new state is `Classified` of the old one: checkmate or stalemate when there is no legal move, then insufficient material, the fifty-move rule and threefold repetition, the first that holds setting the result |
| Game.GameState.CheckForGameOver | ChessLogic/GameState.cs:99-134 | the new state is `Checked` of the old one, which `Game.CheckedFollowsPriority` proves to be the first rule of the priority order that holds, after the clock is charged when in use |
| Game.GameState.MakeMove | ChessLogic/GameState.cs:51-86 | the new state is `Checked` of `Played` of the old one: the move's bookkeeping, then the end-of-game check; the history and balance invariants are kept |
| Game.GameState.StartGame | ChessLogic/GameState.cs:166-172 | starts the clock for the side to move only when the clock is in use |
| Game.GameState.PauseGame | ChessLogic/GameState.cs:174-180 | pauses the clock only when it is in use |
| Game.GameState.ResumeGame | ChessLogic/GameState.cs:182-188 | resumes the clock only when it is in use |
| Game.GameState.SetTimeControl | ChessLogic/GameState.cs:190-194 | a fresh clock of the given time and increment, reset, and in use |

## Left out

- `Game.LegalMovesForPiece`, `Game.AllLegalMovesFor`: the C# returns lazy LINQ queries that read the live board each time they are enumerated. The model computes the lists at once from the board passed in, which agrees with a caller that enumerates the query before the board changes, as the user interface does (ChessUI/MainWindow.xaml.cs:122-127).
- The internals of `Board`, `Piece`, `Move`, `Position` and `StateString` are not part of this model. They are uninterpreted: the operations the game calls are the fields of `Game.Rules`, and a piece is only its type and colour.
- `DateTime.Now`, the timestamp field and the truncation of elapsed time to whole seconds are wall-clock readings. They become `elapsed` parameters.
- The events `OnTimeUpdated` and `OnTrackerUpdated`, and the `"mm:ss"` string built by `GetFormattedTime`, are callbacks and string formatting. Only the minutes/seconds split is modelled, in `Timer.Split`.
- The integers are unbounded: the C# `int` wrap-around of the clocks, the increment, the balance and the ply counter is not modelled.
- The board is modelled as a value that `MakeMove` replaces. In the source it is one shared object, mutated in place, so any aliasing of it by callers is not captured.
- `Game.GameState.MakeMove`: the C# reads the clock once in `SwitchClock` and again in `IsTimeOut`. The model takes the two readings as separate parameters and does not relate them.
- `Game.GameState.WithTimeControl`: the C# constructor with a time control first runs the plain constructor, which builds a 600-second clock and then replaces it. The model builds only the final clock, because the first one is never observable.
- `Game.GameState.PlayMove`, `ReportCapture`, `ExecuteMove`, `PassTurn` and `ClassifyPosition` are the consecutive steps of `MakeMove` and `CheckForGameOver`, split into methods of their own. The code inside them is the source's, in the source's order.
- `Game.Threefold` tests that the current key is in the history before reading its count. The C# indexes the dictionary directly and would throw on a missing key. `Game.CurrentKeyRecorded` shows that this guard never applies under the history invariant that every method keeps.
- `Game.GameState.positions`, the recorded keys since the last capture or pawn move, is a ghost field. It exists only to state the history invariant.
- `TimerEnabled` has a public setter in the source. In the model it is the public field `timerEnabled`, which callers may assign.
- `MakeMove` does not check that the game is still running, and neither does the model. Moves played after a result keep updating the state, and the check only ever replaces the result, never clears it (`Game.CheckedKeepsResult`).
