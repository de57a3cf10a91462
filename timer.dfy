/**
 * The two-clock game timer (ChessLogic/ChessTimer.cs). Wall-clock readings are
 * replaced by `elapsed`: the whole seconds since the timer last took a timestamp.
 */
module Timer {
  import opened Players

  /** What the timer's public properties show. */
  datatype Clocks = Clocks(white: int, black: int, active: Player, paused: bool)

  function Max(a: int, b: int): int {
    if a < b then b else a
  }

  /** The remaining time of one side. */
  function Remaining(c: Clocks, p: Player): int
    requires IsSide(p)
  {
    if p == White then c.white else c.black
  }

  /** The clock state `Reset` produces. */
  function ResetClocks(initial: int): (c: Clocks)
    ensures c.white == initial && c.black == initial
    ensures c.active == Player.None && c.paused
  {
    Clocks(initial, initial, Player.None, true)
  }

  /**
   * The effect of `UpdateRemainingTime`: a running clock loses `elapsed`
   * seconds, never dropping below zero, and nothing else changes.
   */
  function Charge(c: Clocks, elapsed: int): (d: Clocks)
    ensures d.active == c.active && d.paused == c.paused
    ensures c.paused || c.active == Player.None ==> d == c
    ensures !c.paused && IsSide(c.active) ==>
      Remaining(d, c.active) == Max(0, Remaining(c, c.active) - elapsed)
      && Remaining(d, Opponent(c.active)) == Remaining(c, Opponent(c.active))
  {
    if c.paused || c.active == Player.None then c
    else if c.active == White then c.(white := Max(0, c.white - elapsed))
    else c.(black := Max(0, c.black - elapsed))
  }

  /** The effect of `Start(p)`. */
  function StartClock(c: Clocks, p: Player): (d: Clocks)
    ensures p == Player.None ==> d == c
    ensures IsSide(p) ==> d.active == p && !d.paused && d.white == c.white && d.black == c.black
  {
    if p == Player.None then c else c.(active := p, paused := false)
  }

  /** The effect of `Pause`: a running clock is charged, then stopped. */
  function PauseClocks(c: Clocks, elapsed: int): (d: Clocks)
    ensures d.paused && d.active == c.active
    ensures c.paused ==> d == c
    ensures !c.paused ==> d == Charge(c, elapsed).(paused := true)
  {
    if c.paused then c else Charge(c, elapsed).(paused := true)
  }

  /** The effect of `Resume`: a paused clock restarts only if some side's clock was selected. */
  function ResumeClocks(c: Clocks): (d: Clocks)
    ensures d.paused <==> c.paused && c.active == Player.None
    ensures d.white == c.white && d.black == c.black && d.active == c.active
  {
    if c.paused && c.active != Player.None then c.(paused := false) else c
  }

  /**
   * The effect of `SwitchClock`: a running clock is charged, the side that
   * was running receives the increment, and the other side's clock starts.
   */
  function Switch(c: Clocks, increment: int, elapsed: int): (d: Clocks)
    ensures c.paused || c.active == Player.None ==> d == c
    ensures !c.paused && IsSide(c.active) ==>
      !d.paused && d.active == Opponent(c.active)
      && Remaining(d, c.active) == Remaining(Charge(c, elapsed), c.active) + increment
      && Remaining(d, d.active) == Remaining(c, d.active)
  {
    if c.paused then c
    else
      var e := Charge(c, elapsed);
      if e.active == White then e.(white := e.white + increment, active := Black)
      else if e.active == Black then e.(black := e.black + increment, active := White)
      else e
  }

  /** The verdict of `IsTimeOut` on already charged clocks: White's flag is looked at first. */
  function TimeOut(c: Clocks): (r: (bool, Player))
    ensures r.0 <==> c.white <= 0 || c.black <= 0
    ensures r.1 == White <==> c.white <= 0
    ensures r.1 == Black <==> c.white > 0 && c.black <= 0
  {
    if c.white <= 0 then (true, White)
    else if c.black <= 0 then (true, Black)
    else (false, Player.None)
  }

  /** C#'s `/` and `%` on `int`: the quotient is truncated toward zero. */
  function Split(seconds: int): (r: (int, int))
    ensures r.0 * 60 + r.1 == seconds
    ensures seconds >= 0 ==> r.0 >= 0 && 0 <= r.1 < 60
    ensures seconds < 0 ==> r.0 <= 0 && -60 < r.1 <= 0
  {
    var q := if seconds >= 0 then seconds / 60 else -((-seconds) / 60);
    (q, seconds - q * 60)
  }

  /** One call on the timer's public interface, with the seconds it would read off the wall clock. */
  datatype ClockCall =
    | ResetCall
    | StartCall(player: Player)
    | PauseCall(elapsed: int)
    | ResumeCall
    | SwitchCall(elapsed: int)
    | UpdateCall(elapsed: int)
    | TimeOutQuery(elapsed: int)

  function Step(c: Clocks, initial: int, increment: int, call: ClockCall): Clocks {
    match call
    case ResetCall => ResetClocks(initial)
    case StartCall(p) => StartClock(c, p)
    case PauseCall(e) => PauseClocks(c, e)
    case ResumeCall => ResumeClocks(c)
    case SwitchCall(e) => Switch(c, increment, e)
    case UpdateCall(e) => Charge(c, e)
    case TimeOutQuery(e) => Charge(c, e)
  }

  function Run(c: Clocks, initial: int, increment: int, calls: seq<ClockCall>): Clocks {
    if calls == [] then c
    else Step(Run(c, initial, increment, calls[..|calls| - 1]), initial, increment, calls[|calls| - 1])
  }

  /** No clock is negative, and a running timer always has a side's clock selected. */
  ghost predicate Sound(c: Clocks) {
    c.white >= 0 && c.black >= 0 && (!c.paused ==> IsSide(c.active))
  }

  /**
   * With a non-negative initial time and increment, no sequence of calls makes a
   * clock negative or leaves the timer running with no side selected.
   */
  lemma {:induction false} RunStaysSound(c: Clocks, initial: int, increment: int, calls: seq<ClockCall>)
    requires Sound(c) && initial >= 0 && increment >= 0
    ensures Sound(Run(c, initial, increment, calls))
  {
    if calls != [] {
      RunStaysSound(c, initial, increment, calls[..|calls| - 1]);
    }
  }

  /**
   * The increment is added after the clock is clamped at zero, so a side whose
   * time ran out before it moved gets a positive clock back on a positive
   * increment, and the time-out query that follows the move does not report it.
   */
  lemma IncrementHidesFlag(c: Clocks, increment: int, elapsed: int, elapsedAfter: int)
    requires !c.paused && c.active == White && elapsed >= c.white
    requires increment > 0 && c.black > elapsedAfter
    ensures Remaining(Charge(c, elapsed), White) == 0
    ensures TimeOut(Charge(Switch(c, increment, elapsed), elapsedAfter)) == (false, Player.None)
  {
  }

  /** Without an increment the flag stays down: the same move is reported as White's time-out. */
  lemma FlagShownWithoutIncrement(c: Clocks, elapsed: int, elapsedAfter: int)
    requires !c.paused && c.active == White && elapsed >= c.white
    ensures TimeOut(Charge(Switch(c, 0, elapsed), elapsedAfter)) == (true, White)
  {
  }

  class ChessTimer {
    const initialTime: int
    const increment: int
    var remainingTimeWhite: int
    var remainingTimeBlack: int
    var activeClock: Player
    var isPaused: bool

    function State(): Clocks
      reads this
    {
      Clocks(remainingTimeWhite, remainingTimeBlack, activeClock, isPaused)
    }

    constructor (initialTimeInSeconds: int, incrementInSeconds: int := 0)
      ensures initialTime == initialTimeInSeconds && increment == incrementInSeconds
      ensures State() == ResetClocks(initialTimeInSeconds)
    {
      initialTime := initialTimeInSeconds;
      increment := incrementInSeconds;
      new;
      Reset();
    }

    method Reset()
      modifies this
      ensures State() == ResetClocks(initialTime)
    {
      remainingTimeWhite := initialTime;
      remainingTimeBlack := initialTime;
      activeClock := Player.None;
      isPaused := true;
    }

    method Start(player: Player)
      modifies this
      ensures State() == StartClock(old(State()), player)
    {
      if player == Player.None {
        return;
      }
      activeClock := player;
      isPaused := false;
    }

    method Pause(elapsed: int)
      modifies this
      ensures State() == PauseClocks(old(State()), elapsed)
    {
      if !isPaused {
        UpdateRemainingTime(elapsed);
        isPaused := true;
      }
    }

    method Resume()
      modifies this
      ensures State() == ResumeClocks(old(State()))
    {
      if isPaused && activeClock != Player.None {
        isPaused := false;
      }
    }

    method SwitchClock(elapsed: int)
      modifies this
      ensures State() == Switch(old(State()), increment, elapsed)
    {
      if !isPaused {
        UpdateRemainingTime(elapsed);
        if activeClock == White {
          remainingTimeWhite := remainingTimeWhite + increment;
          activeClock := Black;
        } else if activeClock == Black {
          remainingTimeBlack := remainingTimeBlack + increment;
          activeClock := White;
        }
      }
    }

    method UpdateRemainingTime(elapsed: int)
      modifies this
      ensures State() == Charge(old(State()), elapsed)
    {
      if isPaused || activeClock == Player.None {
        return;
      }
      if activeClock == White {
        remainingTimeWhite := Max(0, remainingTimeWhite - elapsed);
      } else if activeClock == Black {
        remainingTimeBlack := Max(0, remainingTimeBlack - elapsed);
      }
    }

    /** Charges the running clock, then reports whether a side has run out and which. */
    method IsTimeOut(elapsed: int) returns (timedOut: bool, losingPlayer: Player)
      modifies this
      ensures State() == Charge(old(State()), elapsed)
      ensures (timedOut, losingPlayer) == TimeOut(State())
    {
      UpdateRemainingTime(elapsed);
      if remainingTimeWhite <= 0 {
        return true, White;
      }
      if remainingTimeBlack <= 0 {
        return true, Black;
      }
      return false, Player.None;
    }

    /** The minutes and seconds shown for one side's clock. */
    function FormattedTime(player: Player): (r: (int, int))
      reads this
      ensures var seconds := if player == White then remainingTimeWhite else remainingTimeBlack;
        r.0 * 60 + r.1 == seconds && (seconds >= 0 ==> 0 <= r.1 < 60)
    {
      Split(if player == White then remainingTimeWhite else remainingTimeBlack)
    }
  }
}
