/** Facts about sequences of events: how long a session takes, what it
    rings, what repeated skips do, and why the pickers never produce a
    duration that `startSession` rejects. */
module Runs {
  import opened Engine
  import Positions
  import Display

  /** The overall-progress numerator: seconds of the session that have
      elapsed, counting each finished position as a full duration. */
  function Elapsed(s: State): int {
    Display.OverallProgress(s.currentPosition, s.totalTime, s.timeRemaining).num
  }

  /** `n` firings of the interval callback. */
  function Ticks(s: State, n: nat): State
    decreases n
  {
    if n == 0 then s else Tick(Ticks(s, n - 1))
  }

  /** `n` presses of the skip button. */
  function Skips(s: State, n: nat): State
    decreases n
  {
    if n == 0 then s else Skip(Skips(s, n - 1))
  }

  // ---------------------------------------------------------------------
  // Ticking

  /** While paused, any number of ticks changes nothing. */
  lemma {:induction false} PausedTicks(s: State, n: nat)
    requires s.isPaused
    ensures Ticks(s, n) == s
    decreases n
  {
    if n > 0 {
      PausedTicks(s, n - 1);
    }
  }

  /** A tick that does not finish the session leaves it running, one second
      further on, with the same interval. */
  lemma TickStep(s: State)
    requires Active(s) && !s.isPaused
    requires Elapsed(s) + 1 < Positions.Count * s.totalTime
    ensures Active(Tick(s)) && !Tick(s).isPaused
    ensures Elapsed(Tick(s)) == Elapsed(s) + 1
    ensures Tick(s).timerInterval == s.timerInterval
  {
  }

  /** The tick that finishes the session: it is on the last position with
      one second left, rings the last bell, and stops the interval. */
  lemma LastTick(s: State)
    requires Active(s) && !s.isPaused
    requires Elapsed(s) + 1 == Positions.Count * s.totalTime
    ensures s.currentPosition == Positions.Last && s.timeRemaining == 1
    ensures Tick(s).screen == Completion && Tick(s).currentPosition == Positions.Count
    ensures Tick(s).bells == s.bells + 1 && Tick(s).live == {}
  {
    if s.currentPosition < Positions.Last {
      Display.MulMonotone(s.currentPosition, Positions.Last - 1, s.totalTime);
      assert false;
    }
  }

  /** Before the end, `n` ticks advance the session by exactly `n` seconds,
      and each position passed rings one bell. */
  lemma {:induction false} TicksAdvance(s: State, n: nat)
    requires Active(s) && !s.isPaused
    requires Elapsed(s) + n < Positions.Count * s.totalTime
    ensures Active(Ticks(s, n)) && !Ticks(s, n).isPaused
    ensures Elapsed(Ticks(s, n)) == Elapsed(s) + n
    ensures SameSettings(s, Ticks(s, n)) && Ticks(s, n).timerInterval == s.timerInterval
    ensures Ticks(s, n).bells == s.bells + (Ticks(s, n).currentPosition - s.currentPosition)
    decreases n
  {
    if n > 0 {
      TicksAdvance(s, n - 1);
      TickStep(Ticks(s, n - 1));
    }
  }

  /** A session started fresh with duration T and never paused is on the
      timer screen for its first 12·T ticks and completed by the 12·T-th:
      every position rang its bell, the index is past the last position,
      and no interval is left. */
  lemma FullRun(s: State)
    requires FreshStart(s)
    ensures forall k :: 0 <= k < Positions.Count * s.totalTime ==> Ticks(s, k).screen == Timer
    ensures Ticks(s, Positions.Count * s.totalTime).screen == Completion
    ensures Ticks(s, Positions.Count * s.totalTime).currentPosition == Positions.Count
    ensures Ticks(s, Positions.Count * s.totalTime).bells == s.bells + Positions.Count
    ensures Ticks(s, Positions.Count * s.totalTime).live == {}
  {
    forall k | 0 <= k < Positions.Count * s.totalTime
      ensures Ticks(s, k).screen == Timer
    {
      TicksAdvance(s, k);
    }
    RunEnds(s, Positions.Count * s.totalTime - 1);
  }

  /** The tick after the one that brings a fresh session to 12·T - 1
      elapsed seconds ends it. */
  lemma RunEnds(s: State, n: nat)
    requires FreshStart(s) && n + 1 == Positions.Count * s.totalTime
    ensures Ticks(s, n + 1).screen == Completion
    ensures Ticks(s, n + 1).currentPosition == Positions.Count
    ensures Ticks(s, n + 1).bells == s.bells + Positions.Count
    ensures Ticks(s, n + 1).live == {}
  {
    var last := Ticks(s, n);
    TicksAdvance(s, n);
    LastTick(last);
  }

  /** The progress bar during a fresh run: the refresh inside the k-th tick
      (after the decrement, before any advance) is on a position in range
      and shows k / (12·T), so it reaches exactly one on the tick that
      completes the session. */
  lemma ProgressShownByTick(s: State, k: nat)
    requires FreshStart(s)
    requires 1 <= k <= Positions.Count * s.totalTime
    ensures var shown := Countdown(Ticks(s, k - 1));
      && 0 <= shown.currentPosition < Positions.Count
      && 0 <= shown.timeRemaining
      && shown.totalTime == s.totalTime
      && Elapsed(shown) == k
      && Display.OverallProgress(shown.currentPosition, shown.totalTime, shown.timeRemaining).den
         == Positions.Count * s.totalTime
  {
    assert Elapsed(s) == 0;
    TicksAdvance(s, k - 1);
    CountdownProgress(Ticks(s, k - 1));
  }

  /** The refresh inside a tick of a running session sees one more elapsed
      second, on a position in range: both the bar and the circle move on
      by one second of their own denominators. */
  lemma CountdownProgress(s: State)
    requires Active(s)
    ensures var shown := Countdown(s);
      && 0 <= shown.currentPosition < Positions.Count
      && 0 <= shown.timeRemaining
      && shown.totalTime == s.totalTime
      && Elapsed(shown) == Elapsed(s) + 1
      && Display.CircleProgress(shown.totalTime, shown.timeRemaining).num
         == Display.CircleProgress(s.totalTime, s.timeRemaining).num + 1
      && Display.CircleProgress(shown.totalTime, shown.timeRemaining).den == s.totalTime
  {
  }

  /** A whole session, from the start button: exactly 12·T ticks and 12
      bells, where T is the duration on the pickers. */
  lemma SessionFromStart(s: State)
    requires Inv(s) && PickedDuration(s) >= 10
    ensures forall k :: 0 <= k < Positions.Count * PickedDuration(s) ==>
              Ticks(StartSession(s), k).screen == Timer
    ensures Ticks(StartSession(s), Positions.Count * PickedDuration(s)).screen == Completion
    ensures Ticks(StartSession(s), Positions.Count * PickedDuration(s)).bells == s.bells + Positions.Count
  {
    FullRun(StartSession(s));
  }

  // ---------------------------------------------------------------------
  // Skipping

  /** Skips before the last position each ring one bell and move one
      position on, with a full countdown. */
  lemma {:induction false} SkipsAdvance(s: State, n: nat)
    requires Active(s) && s.currentPosition + n <= Positions.Last
    ensures Active(Skips(s, n))
    ensures Skips(s, n).currentPosition == s.currentPosition + n
    ensures Skips(s, n).bells == s.bells + n
    ensures n > 0 ==> Skips(s, n).timeRemaining == s.totalTime
    ensures SameSettings(s, Skips(s, n)) && Skips(s, n).isPaused == s.isPaused
    decreases n
  {
    if n > 0 {
      SkipsAdvance(s, n - 1);
    }
  }

  /** Twelve skips from the first position complete the session without
      any tick: eleven bells, since the skip on the last position rings
      none and does not move the index. */
  lemma TwelveSkips(s: State)
    requires Active(s) && s.currentPosition == 0
    ensures forall k :: 0 <= k < Positions.Count ==> Skips(s, k).screen == Timer
    ensures Skips(s, Positions.Count).screen == Completion
    ensures Skips(s, Positions.Count).currentPosition == Positions.Last
    ensures Skips(s, Positions.Count).bells == s.bells + Positions.Last
    ensures Skips(s, Positions.Count).live == {}
  {
    forall k | 0 <= k < Positions.Count
      ensures Skips(s, k).screen == Timer
    {
      SkipsAdvance(s, k);
    }
    SkipsAdvance(s, Positions.Last);
  }

  /** Skipping the last position while paused completes the session with
      the paused flag still set. */
  lemma PausedCompletion(s: State)
    requires Active(s) && s.isPaused && s.currentPosition == Positions.Last
    ensures Skip(s).screen == Completion && Skip(s).isPaused
  {
  }

  // ---------------------------------------------------------------------
  // Pause and reset

  /** Pausing and resuming restores every variable. */
  lemma PauseTwice(s: State)
    ensures Pause(Pause(s)) == s
  {
  }

  /** A confirmed reset, then an unpaused run, completes the session in
      12·T ticks whatever the session had done before. */
  lemma ResetThenRun(s: State)
    requires Active(s)
    ensures Ticks(Reset(s, true), Positions.Count * s.totalTime).screen == Completion
    ensures Ticks(Reset(s, true), Positions.Count * s.totalTime).bells == s.bells + Positions.Count
  {
    FullRun(Reset(s, true));
  }

  // ---------------------------------------------------------------------
  // Duration pickers

  /** A press on one of the picker buttons: minutes by any step, seconds
      by ten up or down. */
  datatype Press = MinutesBy(delta: int) | SecondsUp | SecondsDown

  function ApplyPress(s: State, p: Press): State {
    match p
    case MinutesBy(d) => AdjustMinutes(s, d)
    case SecondsUp => AdjustSeconds(s, 10)
    case SecondsDown => AdjustSeconds(s, -10)
  }

  function ApplyPresses(s: State, ps: seq<Press>): State
    decreases |ps|
  {
    if ps == [] then s else ApplyPresses(ApplyPress(s, ps[0]), ps[1..])
  }

  /** What the pickers can show: minutes in [0, 10], seconds a multiple of
      ten in [0, 50], and a total of at least ten seconds. */
  predicate Picked(s: State) {
    && 0 <= s.minutes <= 10
    && 0 <= s.seconds <= 50 && s.seconds % 10 == 0
    && PickedDuration(s) >= 10
  }

  lemma PressKeepsPicked(s: State, p: Press)
    requires Inv(s) && Picked(s)
    ensures Inv(ApplyPress(s, p)) && Picked(ApplyPress(s, p))
    ensures ApplyPress(s, p).screen == s.screen && ApplyPress(s, p).live == s.live
  {
  }

  lemma {:induction false} PressesKeepPicked(s: State, ps: seq<Press>)
    requires Inv(s) && Picked(s)
    ensures Inv(ApplyPresses(s, ps)) && Picked(ApplyPresses(s, ps))
    decreases |ps|
  {
    if ps != [] {
      PressKeepsPicked(s, ps[0]);
      PressesKeepPicked(ApplyPress(s, ps[0]), ps[1..]);
    }
  }

  /** Whatever the buttons pressed since the page loaded, the start button
      is accepted: the under-ten-seconds rejection cannot be reached through
      the pickers. */
  lemma PickersNeverReject(ps: seq<Press>)
    ensures PickedDuration(ApplyPresses(Initial, ps)) >= 10
    ensures FreshStart(StartSession(ApplyPresses(Initial, ps)))
  {
    PressesKeepPicked(Initial, ps);
  }
}
