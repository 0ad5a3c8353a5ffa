/** The session engine of script.js as pure transitions over one record
    holding every module-level variable the handlers touch, plus three
    abstract outputs: the interval handles still scheduled, the number of
    bells rung, and which screen is shown.

    The class in script.dfy performs the same updates in place; each of its
    methods except `SetInterval`, which stands for the browser's own
    `setInterval`, is proved to produce exactly the transition defined
    here. */
module Engine {
  import Positions

  /** Which of the three screens is visible. */
  datatype Screen = Setup | Timer | Completion

  datatype State = State(
    minutes: int,           // duration picker
    seconds: int,           // duration picker
    currentPosition: int,   // 0-based index into the positions
    timeRemaining: int,     // seconds left on the current position
    totalTime: int,         // seconds per position, fixed at session start
    isPaused: bool,
    timerInterval: nat,     // handle of the last interval created; 0 stands for null
    live: set<nat>,         // handles created and not yet cleared
    nextHandle: nat,        // handle the next setInterval returns
    bells: nat,             // bells rung so far
    screen: Screen)

  /** The values script.js starts with. */
  const Initial: State := State(0, 30, 0, 0, 0, false, 0, {}, 1, 0, Setup)

  /** What holds between any two events. On the timer screen exactly one
      interval is scheduled and the countdown is strictly inside the current
      position; on the other screens nothing is scheduled. */
  predicate Inv(s: State) {
    && 0 <= s.minutes <= 10
    && 0 <= s.seconds < 60
    && 0 < s.nextHandle
    && (forall h :: h in s.live ==> 0 < h < s.nextHandle)
    && match s.screen
       case Timer =>
         && 0 < s.timerInterval
         && s.live == {s.timerInterval}
         && 10 <= s.totalTime
         && 0 <= s.currentPosition < Positions.Count
         && 1 <= s.timeRemaining <= s.totalTime
       case _ => s.live == {}
  }

  /** A session is under way (running or paused). */
  predicate Active(s: State) {
    Inv(s) && s.screen == Timer
  }

  /** The state right after a successful start or a confirmed reset. */
  predicate FreshStart(s: State) {
    Active(s) && !s.isPaused && s.currentPosition == 0 && s.timeRemaining == s.totalTime
  }

  /** Everything that is neither session progress nor an output. */
  predicate SameSettings(s: State, r: State) {
    r.minutes == s.minutes && r.seconds == s.seconds && r.totalTime == s.totalTime
  }

  lemma InitialIsValid()
    ensures Inv(Initial) && Initial.screen == Setup
  {
  }

  // ---------------------------------------------------------------------
  // Duration picker

  /** `validateTime`: a total of zero seconds becomes ten seconds; any
      other total, even one under ten, is left as it is. */
  function ValidateTime(s: State): (r: State)
    ensures r.minutes * 60 + r.seconds != 0
    ensures s.minutes * 60 + s.seconds != 0 ==> r == s
    ensures s.minutes * 60 + s.seconds == 0 ==> r == s.(seconds := 10)
  {
    var total := s.minutes * 60 + s.seconds;
    if total < 10 then
      if total == 0 then s.(seconds := 10) else s
    else s
  }

  /** `adjustMinutes`: `Math.max(0, Math.min(10, minutes + delta))`, then
      `validateTime`. */
  function AdjustMinutes(s: State, delta: int): (r: State)
    ensures 0 <= r.minutes <= 10
    ensures 0 <= s.minutes + delta <= 10 ==> r.minutes == s.minutes + delta
    ensures s.minutes + delta < 0 ==> r.minutes == 0
    ensures s.minutes + delta > 10 ==> r.minutes == 10
    ensures r.seconds == if r.minutes * 60 + s.seconds == 0 then 10 else s.seconds
    ensures r == s.(minutes := r.minutes, seconds := r.seconds)
  {
    var sum := s.minutes + delta;
    var capped := if sum < 10 then sum else 10;
    ValidateTime(s.(minutes := if capped > 0 then capped else 0))
  }

  /** `adjustSeconds`: add `delta`; a sum of 60 or more wraps to 0 and a
      negative sum wraps to 50; then `validateTime`. */
  function AdjustSeconds(s: State, delta: int): (r: State)
    ensures 0 <= r.seconds < 60
    ensures s.seconds + delta >= 60 ==> r.seconds == if s.minutes == 0 then 10 else 0
    ensures s.seconds + delta < 0 ==> r.seconds == 50
    ensures 0 <= s.seconds + delta < 60 ==>
              r.seconds == if s.minutes * 60 + s.seconds + delta == 0 then 10 else s.seconds + delta
    ensures r == s.(seconds := r.seconds)
  {
    var sum := s.seconds + delta;
    var wrapped := if sum >= 60 then 0 else if sum < 0 then 50 else sum;
    ValidateTime(s.(seconds := wrapped))
  }

  // ---------------------------------------------------------------------
  // Intervals

  /** `clearInterval(h)`: the interval no longer fires. */
  function ClearInterval(s: State, h: nat): (r: State)
    ensures h !in r.live && r.live <= s.live
    ensures r == s.(live := r.live)
  {
    s.(live := s.live - {h})
  }

  /** `startTimer`: clear the interval held in `timerInterval`, if any, and
      schedule a new one. At most one interval is live afterwards when at
      most the held one was live before. Handles are positive, as browsers
      hand them out, so `if (timerInterval)` holds for every real handle. */
  function StartTimer(s: State): (r: State)
    ensures r.timerInterval == s.nextHandle && r.nextHandle == s.nextHandle + 1
    ensures 0 !in s.live ==> r.live == (s.live - {s.timerInterval}) + {s.nextHandle}
    ensures 0 !in s.live && s.live <= {s.timerInterval} ==> r.live == {r.timerInterval}
    ensures r == s.(timerInterval := r.timerInterval, live := r.live, nextHandle := r.nextHandle)
  {
    var cleared := if s.timerInterval != 0 then ClearInterval(s, s.timerInterval) else s;
    cleared.(timerInterval := cleared.nextHandle,
             live := cleared.live + {cleared.nextHandle},
             nextHandle := cleared.nextHandle + 1)
  }

  // ---------------------------------------------------------------------
  // Session lifecycle

  /** The duration `startSession` computes from the pickers. */
  function PickedDuration(s: State): int {
    s.minutes * 60 + s.seconds
  }

  /** `startSession`. The position and the duration are overwritten before
      the check, so a rejected start (under ten seconds) still changes
      them; it starts nothing and leaves the screen as it was. */
  function StartSession(s: State): (r: State)
    ensures r.currentPosition == 0 && r.totalTime == PickedDuration(s)
    ensures PickedDuration(s) < 10 ==>
              r == s.(currentPosition := 0, totalTime := PickedDuration(s))
    ensures PickedDuration(s) >= 10 && Inv(s) ==> FreshStart(r)
    ensures Inv(s) && s.screen == Setup ==> Inv(r)
    ensures r.bells == s.bells && r.minutes == s.minutes && r.seconds == s.seconds
  {
    var overwritten := s.(currentPosition := 0, totalTime := PickedDuration(s));
    if overwritten.totalTime < 10 then overwritten
    else StartTimer(overwritten.(timeRemaining := overwritten.totalTime, isPaused := false, screen := Timer))
  }

  /** `completeSession`: stop the interval and show the completion screen. */
  function CompleteSession(s: State): (r: State)
    ensures r.screen == Completion && r.live == s.live - {s.timerInterval}
    ensures r == s.(live := r.live, screen := Completion)
  {
    ClearInterval(s, s.timerInterval).(screen := Completion)
  }

  /** `completePosition`: ring the bell and move to the next position;
      past the last position the session completes, otherwise the countdown
      restarts at the full duration. */
  function CompletePosition(s: State): (r: State)
    ensures r.bells == s.bells + 1 && r.currentPosition == s.currentPosition + 1
    ensures s.currentPosition + 1 >= Positions.Count ==>
              r == s.(bells := s.bells + 1, currentPosition := s.currentPosition + 1,
                      live := s.live - {s.timerInterval}, screen := Completion)
    ensures s.currentPosition + 1 < Positions.Count ==>
              r == s.(bells := s.bells + 1, currentPosition := s.currentPosition + 1,
                      timeRemaining := s.totalTime)
    ensures SameSettings(s, r) && r.isPaused == s.isPaused
  {
    var moved := s.(bells := s.bells + 1, currentPosition := s.currentPosition + 1);
    if moved.currentPosition >= Positions.Count then CompleteSession(moved)
    else moved.(timeRemaining := moved.totalTime)
  }

  /** The first half of the interval callback: one second off the clock.
      The display is refreshed from this state, before any advance. */
  function Countdown(s: State): (r: State)
    ensures r.timeRemaining + 1 == s.timeRemaining
    ensures r == s.(timeRemaining := r.timeRemaining)
  {
    s.(timeRemaining := s.timeRemaining - 1)
  }

  /** The interval callback. */
  function Tick(s: State): (r: State)
    ensures s.isPaused ==> r == s
    ensures !s.isPaused && s.timeRemaining > 1 ==> r == Countdown(s)
    ensures !s.isPaused && s.timeRemaining <= 1 ==> r == CompletePosition(Countdown(s))
    ensures Inv(s) && s.timerInterval in s.live ==> Inv(r)
    ensures SameSettings(s, r) && r.isPaused == s.isPaused
    ensures r.bells == s.bells + (r.currentPosition - s.currentPosition)
  {
    if s.isPaused then s
    else
      var counted := Countdown(s);
      if counted.timeRemaining <= 0 then CompletePosition(counted) else counted
  }

  /** `pauseTimer`: flips the paused flag and nothing else. */
  function Pause(s: State): (r: State)
    ensures r.isPaused != s.isPaused
    ensures r == s.(isPaused := r.isPaused)
    ensures Inv(s) ==> Inv(r)
  {
    s.(isPaused := !s.isPaused)
  }

  /** `skipPosition`: before the last position, ring the bell and advance
      with a full countdown; on the last position complete the session
      without a bell and without moving. */
  function Skip(s: State): (r: State)
    ensures s.currentPosition < Positions.Last ==>
              r == s.(bells := s.bells + 1, currentPosition := s.currentPosition + 1,
                      timeRemaining := s.totalTime)
    ensures s.currentPosition >= Positions.Last ==>
              r == s.(live := s.live - {s.timerInterval}, screen := Completion)
    ensures Active(s) ==> Inv(r)
  {
    if s.currentPosition < Positions.Count - 1 then
      s.(bells := s.bells + 1, currentPosition := s.currentPosition + 1, timeRemaining := s.totalTime)
    else CompleteSession(s)
  }

  /** `resetSession`, with the answer to its confirmation dialog. */
  function Reset(s: State, confirmed: bool): (r: State)
    ensures !confirmed ==> r == s
    ensures confirmed && Active(s) ==> FreshStart(r) && SameSettings(s, r) && r.bells == s.bells
  {
    if confirmed then
      var stopped := ClearInterval(s, s.timerInterval);
      StartTimer(stopped.(currentPosition := 0, timeRemaining := s.totalTime, isPaused := false))
    else s
  }

  /** `backToHome`, with the answer to its confirmation dialog. Position
      and countdown are left as they are. */
  function BackToHome(s: State, confirmed: bool): (r: State)
    ensures !confirmed ==> r == s
    ensures confirmed ==> r.screen == Setup && !r.isPaused && r.live == s.live - {s.timerInterval}
    ensures confirmed && Active(s) ==> Inv(r) && r.live == {}
    ensures confirmed ==> r == s.(live := s.live - {s.timerInterval}, isPaused := false, screen := Setup)
  {
    if confirmed then ClearInterval(s, s.timerInterval).(isPaused := false, screen := Setup)
    else s
  }

  /** `resetToSetup`: from the completion screen back to the pickers. */
  function ResetToSetup(s: State): (r: State)
    ensures r.screen == Setup && r.live == s.live - {s.timerInterval}
    ensures Inv(s) && s.screen == Completion ==> Inv(r)
    ensures r == s.(live := s.live - {s.timerInterval}, screen := Setup)
  {
    ClearInterval(s, s.timerInterval).(screen := Setup)
  }
}
