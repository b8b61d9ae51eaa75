/**
 * The Pomodoro panel: the `MM:SS` clock face, the settings form, the
 * sound toggle, the dots that show the progress of the current cycle and
 * the buttons that reset the timer and the cycle through the engine.
 */
module Pomodoro {
  import opened Common
  import opened Strings
  import opened EstudioContext

  /** `formatTime`: whole minutes and the remaining seconds, each padded to two digits. */
  function FormatTime(seconds: int): string
  {
    var m := seconds / 60;
    var s := JsRem(seconds, 60);
    PadStart(IntToString(m), 2, '0') + ":" + PadStart(IntToString(s), 2, '0')
  }

  /** The clock face of a non-negative countdown reads back as that countdown. */
  lemma ReadFormatTime(seconds: int)
    requires seconds >= 0
    ensures ReadClock(FormatTime(seconds)) == Some(seconds)
  {
    var m, s := seconds / 60, seconds % 60;
    var a := PadStart(NatToString(m), 2, '0');
    var b := PadStart(NatToString(s), 2, '0');
    assert FormatTime(seconds) == a + ":" + b;
    ParsePadded(m, 2);
    ParsePadded(s, 2);
    ReadFields(a, b);
    assert m * 60 + s == seconds;
    var r := ReadClock(FormatTime(seconds));
    assert r.value == seconds;
    assert r == Some(r.value);
  }

  /** Below 100 minutes the face is exactly five characters, `MM:SS`. */
  lemma FormatTimeWidth(seconds: int)
    requires 0 <= seconds < 6000
    ensures |FormatTime(seconds)| == 5
    ensures FormatTime(seconds)[2] == ':'
  {
    PadTwoLength(seconds / 60);
    PadTwoLength(seconds % 60);
  }

  /** The four numeric fields of the settings form. */
  datatype ConfigField = WorkTime | ShortBreak | LongBreak | SessionsUntilLongBreak

  function FieldValue(c: Config, f: ConfigField): int
  {
    match f
    case WorkTime => c.workTime
    case ShortBreak => c.shortBreak
    case LongBreak => c.longBreak
    case SessionsUntilLongBreak => c.sessionsUntilLongBreak
  }

  /**
   * Typing `text` into field `f`: its `parseInt` value is stored, or 1 when
   * that is NaN. Zero and negative values are stored as typed.
   */
  function EditConfig(c: Config, f: ConfigField, text: string): (r: Config)
    ensures FieldValue(r, f) == (match ParseIntPrefix(text) case Some(v) => v case None => 1)
    ensures forall g :: g != f ==> FieldValue(r, g) == FieldValue(c, g)
    ensures r.soundEnabled == c.soundEnabled
  {
    var v := match ParseIntPrefix(text) case Some(n) => n case None => 1;
    match f
    case WorkTime => c.(workTime := v)
    case ShortBreak => c.(shortBreak := v)
    case LongBreak => c.(longBreak := v)
    case SessionsUntilLongBreak => c.(sessionsUntilLongBreak := v)
  }

  /** A typed number is stored as that number. */
  lemma EditConfigNumber(c: Config, f: ConfigField, n: nat)
    ensures FieldValue(EditConfig(c, f, NatToString(n)), f) == n
  {
    ParseIntOfNat(n);
  }

  /** The speaker button flips the sound flag and nothing else. */
  function ToggleSound(c: Config): (r: Config)
    ensures r.soundEnabled == !c.soundEnabled
    ensures forall g :: FieldValue(r, g) == FieldValue(c, g)
  {
    c.(soundEnabled := !c.soundEnabled)
  }

  lemma ToggleSoundTwice(c: Config)
    ensures ToggleSound(ToggleSound(c)) == c
  {
  }

  /**
   * The cycle dots, `[...Array(n)]`: one per session of the cycle, the first
   * `sessionInCycle` filled; `None` is the RangeError a negative length raises.
   */
  function CycleDots(n: int, sessionInCycle: nat): (r: Option<seq<bool>>)
    ensures r.None? <==> n < 0
    ensures r.Some? ==> |r.value| == n
    ensures r.Some? ==> forall i :: 0 <= i < n ==> (r.value[i] <==> i < sessionInCycle)
  {
    if n < 0 then None else Some(seq(n, i => i < sessionInCycle))
  }

  function Filled(dots: seq<bool>): nat
  {
    Count(dots, (b: bool) => b)
  }

  lemma {:induction false} FilledPrefix(dots: seq<bool>, k: nat)
    requires k <= |dots|
    requires forall i :: 0 <= i < |dots| ==> (dots[i] <==> i < k)
    ensures Filled(dots) == k
  {
    if dots != [] {
      FilledPrefix(dots[1..], if k > 0 then k - 1 else 0);
    }
  }

  /** Under the cycle invariant the filled dots count exactly the sessions done in the cycle. */
  lemma DotsShowCycle(t: Timer)
    requires CycleInv(t)
    ensures CycleDots(t.config.sessionsUntilLongBreak, t.sessionInCycle).Some?
    ensures Filled(CycleDots(t.config.sessionsUntilLongBreak, t.sessionInCycle).value) == t.sessionInCycle
  {
    var d := CycleDots(t.config.sessionsUntilLongBreak, t.sessionInCycle).value;
    FilledPrefix(d, t.sessionInCycle);
  }

  /** The badge above the clock. */
  function ModeLabel(m: Mode): (s: string)
    ensures s == "Enfoque" <==> m == Work
  {
    match m
    case Work => "Enfoque"
    case Short => "Descanso Corto"
    case Long => "Descanso Largo"
  }

  lemma ModeLabelInjective(a: Mode, b: Mode)
    ensures ModeLabel(a) == ModeLabel(b) <==> a == b
  {
  }

  /** `handleApplyConfig`: the form closes and the timer restarts from the new focus length. */
  method HandleApplyConfig(e: EstudioEngine) returns (isEditing: bool)
    modifies e
    ensures e.State() == ResetTimer(old(e.State()))
    ensures !isEditing
  {
    e.ResetTimerNow();
    isEditing := false;
  }

  /** An edit of one field of the open settings form. */
  method EditField(e: EstudioEngine, f: ConfigField, text: string)
    modifies e
    ensures e.State() == old(e.State()).(config := EditConfig(old(e.config), f, text))
  {
    e.SetConfigTo(EditConfig(e.config, f, text));
  }

  /** The speaker button. */
  method ToggleSoundButton(e: EstudioEngine)
    modifies e
    ensures e.State() == old(e.State()).(config := ToggleSound(old(e.config)))
  {
    e.SetConfigTo(ToggleSound(e.config));
  }

  /** "Reiniciar Ciclo Actual": after the confirmation, the cycle and then the timer are reset. */
  method ReiniciarCiclo(e: EstudioEngine, confirmed: bool)
    modifies e
    ensures e.State() == if confirmed then ResetTimer(ResetCycles(old(e.State()))) else old(e.State())
  {
    if confirmed {
      e.ResetCyclesNow();
      e.ResetTimerNow();
    }
  }

  /** The cycle restarts at 0 in an idle focus period and the day's total is kept. */
  lemma ReiniciarCicloEffect(t: Timer)
    ensures ResetTimer(ResetCycles(t)).sessionInCycle == 0
    ensures ResetTimer(ResetCycles(t)).mode == Work && !ResetTimer(ResetCycles(t)).isActive
    ensures ResetTimer(ResetCycles(t)).timeLeft == t.config.workTime * 60
    ensures ResetTimer(ResetCycles(t)).completedSessions == t.completedSessions
  {
  }

  /** Applying a configuration then restarts from its focus length. */
  lemma ApplyConfigEffect(t: Timer, c: Config)
    ensures ResetTimer(t.(config := c)).timeLeft == c.workTime * 60
    ensures ResetTimer(t.(config := c)).mode == Work
  {
  }
}
