/** The page's module-level state and its handlers, updated in place as
    script.js does. Every field is one of the script's `let` variables,
    except three abstract outputs: `live` (interval handles scheduled and
    not yet cleared), `bells` (bells rung) and `screen` (the visible
    screen). Each method except `SetInterval` (the browser's own
    `setInterval`) is proved to perform the matching transition of module
    Engine, whose properties are proved there and in module Runs. The
    handlers keep `Valid()`; the helpers they call need not. */
module Script {
  import opened Engine
  import Positions

  class ReikiTimer {
    var minutes: int
    var seconds: int
    var currentPosition: int
    var timeRemaining: int
    var totalTime: int
    var timerInterval: nat   // 0 stands for null
    var isPaused: bool
    var live: set<nat>
    var nextHandle: nat
    var bells: nat
    var screen: Screen

    /** The variables as one value. */
    function Model(): State
      reads this
    {
      State(minutes, seconds, currentPosition, timeRemaining, totalTime, isPaused,
            timerInterval, live, nextHandle, bells, screen)
    }

    ghost predicate Valid()
      reads this
    {
      Inv(Model())
    }

    /** The page as loaded: 0 minutes 30 seconds on the pickers, no
        interval, the setup screen. */
    constructor ()
      ensures Valid() && Model() == Initial
    {
      minutes, seconds := 0, 30;
      currentPosition, timeRemaining, totalTime := 0, 0, 0;
      timerInterval, isPaused := 0, false;
      live, nextHandle := {}, 1;
      bells, screen := 0, Setup;
    }

    // -------------------------------------------------------------------
    // Duration picker

    method AdjustMinutes(delta: int)
      requires Valid()
      modifies this
      ensures Valid() && Model() == Engine.AdjustMinutes(old(Model()), delta)
    {
      var capped := if minutes + delta < 10 then minutes + delta else 10;
      minutes := if capped > 0 then capped else 0;
      ValidateTime();
    }

    method AdjustSeconds(delta: int)
      requires Valid()
      modifies this
      ensures Valid() && Model() == Engine.AdjustSeconds(old(Model()), delta)
    {
      seconds := seconds + delta;
      if seconds >= 60 {
        seconds := 0;
      } else if seconds < 0 {
        seconds := 50;
      }
      ValidateTime();
    }

    method ValidateTime()
      modifies this
      ensures Model() == Engine.ValidateTime(old(Model()))
    {
      var totalSeconds := minutes * 60 + seconds;
      if totalSeconds < 10 {
        if totalSeconds == 0 {
          seconds := 10;
        }
      }
    }

    // -------------------------------------------------------------------
    // Intervals

    /** `setInterval`: schedules the tick and returns a fresh handle. */
    method SetInterval() returns (h: nat)
      modifies this
      ensures h == old(nextHandle)
      ensures Model() == old(Model()).(live := old(live) + {h}, nextHandle := h + 1)
    {
      h := nextHandle;
      nextHandle := nextHandle + 1;
      live := live + {h};
    }

    method ClearInterval(h: nat)
      modifies this
      ensures Model() == Engine.ClearInterval(old(Model()), h)
    {
      live := live - {h};
    }

    method StartTimer()
      modifies this
      ensures Model() == Engine.StartTimer(old(Model()))
    {
      if timerInterval != 0 {
        ClearInterval(timerInterval);
      }
      timerInterval := SetInterval();
    }

    // -------------------------------------------------------------------
    // Session lifecycle

    /** The start button, shown on the setup screen; `started` is false
        when the duration is under ten seconds (the alert). */
    method StartSession() returns (started: bool)
      requires Valid() && screen == Setup
      modifies this
      ensures Valid() && Model() == Engine.StartSession(old(Model()))
      ensures started <==> PickedDuration(old(Model())) >= 10
    {
      currentPosition := 0;
      totalTime := minutes * 60 + seconds;
      if totalTime < 10 {
        return false;
      }
      timeRemaining := totalTime;
      isPaused := false;
      screen := Timer;
      StartTimer();
      started := true;
    }

    /** The interval callback. It only fires while its interval is live. */
    method Tick()
      requires Valid() && timerInterval in live
      modifies this
      ensures Valid() && Model() == Engine.Tick(old(Model()))
    {
      if !isPaused {
        timeRemaining := timeRemaining - 1;
        if timeRemaining <= 0 {
          CompletePosition();
        }
      }
    }

    method CompletePosition()
      modifies this
      ensures Model() == Engine.CompletePosition(old(Model()))
    {
      bells := bells + 1;
      currentPosition := currentPosition + 1;
      if currentPosition >= Positions.Count {
        CompleteSession();
      } else {
        timeRemaining := totalTime;
      }
    }

    method CompleteSession()
      modifies this
      ensures Model() == Engine.CompleteSession(old(Model()))
    {
      ClearInterval(timerInterval);
      screen := Completion;
    }

    method PauseTimer()
      requires Valid()
      modifies this
      ensures Valid() && Model() == Engine.Pause(old(Model()))
    {
      isPaused := !isPaused;
    }

    /** The skip button, shown on the timer screen. */
    method SkipPosition()
      requires Valid() && screen == Timer
      modifies this
      ensures Valid() && Model() == Engine.Skip(old(Model()))
    {
      if currentPosition < Positions.Count - 1 {
        bells := bells + 1;
        currentPosition := currentPosition + 1;
        timeRemaining := totalTime;
      } else {
        CompleteSession();
      }
    }

    /** The reset button, shown on the timer screen; `confirmed` is the
        answer to its dialog. */
    method ResetSession(confirmed: bool)
      requires Valid() && screen == Timer
      modifies this
      ensures Valid() && Model() == Engine.Reset(old(Model()), confirmed)
    {
      if confirmed {
        ClearInterval(timerInterval);
        currentPosition := 0;
        timeRemaining := totalTime;
        isPaused := false;
        StartTimer();
      }
    }

    /** The home button, shown on the timer screen; `confirmed` is the
        answer to its dialog. */
    method BackToHome(confirmed: bool)
      requires Valid() && screen == Timer
      modifies this
      ensures Valid() && Model() == Engine.BackToHome(old(Model()), confirmed)
    {
      if confirmed {
        ClearInterval(timerInterval);
        isPaused := false;
        screen := Setup;
      }
    }

    /** The button on the completion screen. */
    method ResetToSetup()
      requires Valid() && screen == Completion
      modifies this
      ensures Valid() && Model() == Engine.ResetToSetup(old(Model()))
    {
      ClearInterval(timerInterval);
      screen := Setup;
    }
  }
}
