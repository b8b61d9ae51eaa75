/**
 * The Pomodoro engine of the study page: a countdown that alternates focus
 * periods (WORK) with short and long breaks, counting completed focus
 * periods for the day and, separately, the focus periods of the current
 * cycle that leads to a long break.
 *
 * The state is a record `Timer`; the specification functions below say how
 * each operation changes it, and the class `EstudioEngine` holds the same
 * fields and is proved to follow them.
 */
module EstudioContext {

  datatype Mode = Work | Short | Long

  /** Durations are in minutes; `sessionsUntilLongBreak` is the cycle length. */
  datatype Config = Config(workTime: int, shortBreak: int, longBreak: int,
                           sessionsUntilLongBreak: int, soundEnabled: bool)

  datatype Timer = Timer(timeLeft: int, isActive: bool, mode: Mode,
                         completedSessions: nat, sessionInCycle: nat, config: Config)

  const DefaultConfig := Config(25, 5, 15, 4, true)

  /** The provider's initial state: an idle 25-minute focus period. */
  function Initial(): (t: Timer)
    ensures t.timeLeft == t.config.workTime * 60 && t.mode == Work && !t.isActive
    ensures t.completedSessions == 0 && t.sessionInCycle == 0
  {
    Timer(DefaultConfig.workTime * 60, false, Work, 0, 0, DefaultConfig)
  }

  /**
   * `handleNextMode`: the period that just ended is closed. A focus period
   * counts as completed and advances the cycle, ending it with a long break
   * once the cycle is full; a break leads back to focus.
   */
  function NextMode(t: Timer): Timer
  {
    var c := t.config;
    if t.mode == Work then
      var nextInCycle := t.sessionInCycle + 1;
      if nextInCycle >= c.sessionsUntilLongBreak then
        t.(isActive := false, completedSessions := t.completedSessions + 1,
           mode := Long, timeLeft := c.longBreak * 60, sessionInCycle := 0)
      else
        t.(isActive := false, completedSessions := t.completedSessions + 1,
           mode := Short, timeLeft := c.shortBreak * 60, sessionInCycle := nextInCycle)
    else
      t.(isActive := false, mode := Work, timeLeft := c.workTime * 60)
  }

  /**
   * One run of the countdown effect: a second elapses while the timer runs
   * with time left, and a countdown standing at exactly 0 ends the period.
   */
  function Step(t: Timer): Timer
  {
    if t.isActive && t.timeLeft > 0 then t.(timeLeft := t.timeLeft - 1)
    else if t.timeLeft == 0 then NextMode(t)
    else t
  }

  function Start(t: Timer): Timer { t.(isActive := true) }

  function Pause(t: Timer): Timer { t.(isActive := false) }

  /** `resetTimer`: back to an idle, full focus period; the counters stay. */
  function ResetTimer(t: Timer): Timer
  {
    t.(isActive := false, mode := Work, timeLeft := t.config.workTime * 60)
  }

  /** `resetCycles`: only the cycle progress is cleared. */
  function ResetCycles(t: Timer): Timer { t.(sessionInCycle := 0) }

  /** The operations the provider exposes, as one alphabet. */
  datatype Action =
    | Tick | StartTimer | PauseTimer | ResetTimerAction | ResetCyclesAction
    | SetConfig(c: Config) | SetMode(m: Mode) | SetTimeLeft(n: int)

  function Apply(t: Timer, a: Action): Timer
  {
    match a
    case Tick => Step(t)
    case StartTimer => Start(t)
    case PauseTimer => Pause(t)
    case ResetTimerAction => ResetTimer(t)
    case ResetCyclesAction => ResetCycles(t)
    case SetConfig(c) => t.(config := c)
    case SetMode(m) => t.(mode := m)
    case SetTimeLeft(n) => t.(timeLeft := n)
  }

  function Run(t: Timer, actions: seq<Action>): Timer
    decreases |actions|
  {
    if actions == [] then t else Run(Apply(t, actions[0]), actions[1..])
  }

  // ----- Properties of the specification -----

  /** The countdown moves only while running with time left, by exactly one second. */
  lemma StepCountsDown(t: Timer)
    ensures t.isActive && t.timeLeft > 0 ==> Step(t) == t.(timeLeft := t.timeLeft - 1)
    ensures t.timeLeft != 0 && !(t.isActive && t.timeLeft > 0) ==> Step(t) == t
    ensures t.timeLeft == 0 ==> Step(t) == NextMode(t)
  {
  }

  /** Ending a period always stops the timer; nothing but the period change happens. */
  lemma NextModeStops(t: Timer)
    ensures !NextMode(t).isActive
    ensures NextMode(t).config == t.config
    ensures NextMode(t).timeLeft == NextMode(t).config.workTime * 60 <== NextMode(t).mode == Work
  {
  }

  /** A focus period that ends adds one completed session, and moves to the right break. */
  lemma WorkCompletion(t: Timer)
    requires t.mode == Work
    ensures NextMode(t).completedSessions == t.completedSessions + 1
    ensures t.sessionInCycle + 1 >= t.config.sessionsUntilLongBreak ==>
              NextMode(t).mode == Long && NextMode(t).timeLeft == t.config.longBreak * 60 &&
              NextMode(t).sessionInCycle == 0
    ensures t.sessionInCycle + 1 < t.config.sessionsUntilLongBreak ==>
              NextMode(t).mode == Short && NextMode(t).timeLeft == t.config.shortBreak * 60 &&
              NextMode(t).sessionInCycle == t.sessionInCycle + 1
  {
  }

  /** A break that ends leads to a full focus period and leaves both counters alone. */
  lemma BreakCompletion(t: Timer)
    requires t.mode != Work
    ensures NextMode(t).mode == Work && NextMode(t).timeLeft == t.config.workTime * 60
    ensures NextMode(t).completedSessions == t.completedSessions
    ensures NextMode(t).sessionInCycle == t.sessionInCycle
  {
  }

  /** With a cycle length of at least 1, the cycle position after a focus period is in range. */
  lemma CycleInRangeAfterWork(t: Timer)
    requires t.mode == Work && t.config.sessionsUntilLongBreak >= 1
    ensures NextMode(t).sessionInCycle < NextMode(t).config.sessionsUntilLongBreak
  {
  }

  /** The invariant the cycle dots rely on. */
  predicate CycleInv(t: Timer)
  {
    t.config.sessionsUntilLongBreak >= 1 && t.sessionInCycle < t.config.sessionsUntilLongBreak
  }

  /** Every operation but a configuration change keeps the cycle in range. */
  lemma ApplyKeepsCycle(t: Timer, a: Action)
    requires CycleInv(t)
    requires !a.SetConfig?
    ensures CycleInv(Apply(t, a))
  {
  }

  /** A configuration change keeps it when the new cycle is not shorter than the current position. */
  lemma SetConfigKeepsCycle(t: Timer, c: Config)
    requires CycleInv(t) && c.sessionsUntilLongBreak > t.sessionInCycle
    ensures CycleInv(Apply(t, SetConfig(c)))
  {
  }

  /** No operation ever lowers the day's completed sessions. */
  lemma ApplyMonotone(t: Timer, a: Action)
    ensures Apply(t, a).completedSessions >= t.completedSessions
    ensures a != Tick ==> Apply(t, a).completedSessions == t.completedSessions
  {
  }

  lemma {:induction false} RunMonotone(t: Timer, actions: seq<Action>)
    ensures Run(t, actions).completedSessions >= t.completedSessions
    decreases |actions|
  {
    if actions != [] {
      ApplyMonotone(t, actions[0]);
      RunMonotone(Apply(t, actions[0]), actions[1..]);
    }
  }

  lemma {:induction false} RunKeepsCycle(t: Timer, actions: seq<Action>)
    requires CycleInv(t)
    requires forall i :: 0 <= i < |actions| ==> !actions[i].SetConfig?
    ensures CycleInv(Run(t, actions))
    decreases |actions|
  {
    if actions != [] {
      ApplyKeepsCycle(t, actions[0]);
      RunKeepsCycle(Apply(t, actions[0]), actions[1..]);
    }
  }

  /** Start and pause only touch `isActive`, and doing either twice is doing it once. */
  lemma StartPauseIdempotent(t: Timer)
    ensures Start(Start(t)) == Start(t) && Pause(Pause(t)) == Pause(t)
    ensures Start(t).(isActive := t.isActive) == t && Pause(t).(isActive := t.isActive) == t
  {
  }

  /** A configuration change leaves the running countdown as it is. */
  lemma SetConfigKeepsTime(t: Timer, c: Config)
    ensures Apply(t, SetConfig(c)).timeLeft == t.timeLeft
    ensures Apply(t, SetConfig(c)).mode == t.mode
  {
  }

  /** `resetTimer` and `resetCycles` keep the counters they are not about. */
  lemma ResetsKeepCounters(t: Timer)
    ensures ResetTimer(t).completedSessions == t.completedSessions
    ensures ResetTimer(t).sessionInCycle == t.sessionInCycle
    ensures ResetCycles(t).(sessionInCycle := t.sessionInCycle) == t
    ensures ResetCycles(t).sessionInCycle == 0
  {
  }

  /** One focus period followed by its break: the unit of a cycle. */
  function Round(t: Timer): Timer { NextMode(NextMode(t)) }

  function Rounds(t: Timer, k: nat): Timer
  {
    if k == 0 then t else Round(Rounds(t, k - 1))
  }

  /**
   * From the start of a cycle, the first `k < sessionsUntilLongBreak` focus
   * periods each end in a short break and advance the cycle by one.
   */
  lemma {:induction false} RoundsAdvance(t: Timer, k: nat)
    requires t.mode == Work && t.sessionInCycle == 0
    requires k < t.config.sessionsUntilLongBreak
    ensures Rounds(t, k).mode == Work && Rounds(t, k).sessionInCycle == k
    ensures Rounds(t, k).config == t.config
    ensures Rounds(t, k).completedSessions == t.completedSessions + k
    ensures k + 1 < t.config.sessionsUntilLongBreak ==> NextMode(Rounds(t, k)).mode == Short
  {
    if k > 0 {
      RoundsAdvance(t, k - 1);
    }
  }

  /** The N-th consecutive focus period of a cycle, and not an earlier one, ends in a long break. */
  lemma NthWorkGoesLong(t: Timer)
    requires t.mode == Work && t.sessionInCycle == 0 && t.config.sessionsUntilLongBreak >= 1
    ensures NextMode(Rounds(t, t.config.sessionsUntilLongBreak - 1)).mode == Long
    ensures NextMode(Rounds(t, t.config.sessionsUntilLongBreak - 1)).sessionInCycle == 0
    ensures forall k: nat :: k + 1 < t.config.sessionsUntilLongBreak ==> NextMode(Rounds(t, k)).mode == Short
  {
    RoundsAdvance(t, t.config.sessionsUntilLongBreak - 1);
    forall k: nat | k + 1 < t.config.sessionsUntilLongBreak
      ensures NextMode(Rounds(t, k)).mode == Short
    {
      RoundsAdvance(t, k);
    }
  }

  // ----- The provider as an object -----

  class EstudioEngine {
    var timeLeft: int
    var isActive: bool
    var mode: Mode
    var completedSessions: nat
    var sessionInCycle: nat
    var config: Config

    function State(): Timer
      reads this
    {
      Timer(timeLeft, isActive, mode, completedSessions, sessionInCycle, config)
    }

    constructor ()
      ensures State() == Initial()
    {
      config := DefaultConfig;
      timeLeft := DefaultConfig.workTime * 60;
      isActive := false;
      mode := Work;
      completedSessions := 0;
      sessionInCycle := 0;
    }

    method HandleNextMode()
      modifies this
      ensures State() == NextMode(old(State()))
    {
      isActive := false;
      if mode == Work {
        completedSessions := completedSessions + 1;
        var nextInCycle := sessionInCycle + 1;
        sessionInCycle := nextInCycle;
        if nextInCycle >= config.sessionsUntilLongBreak {
          mode := Long;
          timeLeft := config.longBreak * 60;
          sessionInCycle := 0;
        } else {
          mode := Short;
          timeLeft := config.shortBreak * 60;
        }
      } else {
        mode := Work;
        timeLeft := config.workTime * 60;
      }
    }

    /** One run of the countdown effect. */
    method Tick()
      modifies this
      ensures State() == Step(old(State()))
    {
      if isActive && timeLeft > 0 {
        timeLeft := timeLeft - 1;
      } else if timeLeft == 0 {
        HandleNextMode();
      }
    }

    /** The start cue is a sound played on the side; it does not change the state. */
    method StartTimer()
      modifies this
      ensures State() == Start(old(State()))
    {
      isActive := true;
    }

    method PauseTimer()
      modifies this
      ensures State() == Pause(old(State()))
    {
      isActive := false;
    }

    method ResetTimerNow()
      modifies this
      ensures State() == ResetTimer(old(State()))
    {
      isActive := false;
      mode := Work;
      timeLeft := config.workTime * 60;
    }

    method ResetCyclesNow()
      modifies this
      ensures State() == ResetCycles(old(State()))
    {
      sessionInCycle := 0;
    }

    method SetConfigTo(c: Config)
      modifies this
      ensures State() == Apply(old(State()), SetConfig(c))
    {
      config := c;
    }

    method SetModeTo(m: Mode)
      modifies this
      ensures State() == Apply(old(State()), SetMode(m))
    {
      mode := m;
    }

    method SetTimeLeftTo(n: int)
      modifies this
      ensures State() == Apply(old(State()), SetTimeLeft(n))
    {
      timeLeft := n;
    }

    /** Performs a sequence of operations one by one. */
    method Perform(actions: seq<Action>)
      modifies this
      ensures State() == Run(old(State()), actions)
    {
      var i := 0;
      while i < |actions|
        invariant 0 <= i <= |actions|
        invariant Run(State(), actions[i..]) == Run(old(State()), actions)
      {
        var a := actions[i];
        ghost var before := State();
        match a {
          case Tick => Tick();
          case StartTimer => StartTimer();
          case PauseTimer => PauseTimer();
          case ResetTimerAction => ResetTimerNow();
          case ResetCyclesAction => ResetCyclesNow();
          case SetConfig(c) => SetConfigTo(c);
          case SetMode(m) => SetModeTo(m);
          case SetTimeLeft(n) => SetTimeLeftTo(n);
        }
        assert State() == Apply(before, a);
        assert actions[i..][1..] == actions[i + 1..];
        i := i + 1;
      }
    }
  }
}
