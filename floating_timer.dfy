/**
 * The floating widget shown on every page while a Pomodoro runs.
 */
module FloatingTimer {
  import opened Common
  import opened Strings
  import opened EstudioContext

  /** `formatTime`: the minutes as they are, the seconds padded to two digits. */
  function FormatTime(seconds: int): string
  {
    IntToString(seconds / 60) + ":" + PadStart(IntToString(JsRem(seconds, 60)), 2, '0')
  }

  /** For a non-negative countdown the face reads back as the countdown, at any length. */
  lemma ReadFormatTime(seconds: int)
    requires seconds >= 0
    ensures ReadClock(FormatTime(seconds)) == Some(seconds)
  {
    var m, s := seconds / 60, seconds % 60;
    var a := NatToString(m);
    var b := PadStart(NatToString(s), 2, '0');
    assert FormatTime(seconds) == a + ":" + b;
    ParseNatToString(m);
    ParsePadded(s, 2);
    ReadFields(a, b);
    assert m * 60 + s == seconds;
    var r := ReadClock(FormatTime(seconds));
    assert r.value == seconds;
    assert r == Some(r.value);
  }

  datatype Widget = Widget(caption: string, clock: string)

  /** What is drawn: nothing while idle, otherwise the period's label and the clock. */
  function View(t: Timer): (w: Option<Widget>)
    ensures w.Some? <==> t.isActive
    ensures w.Some? ==> (w.value.caption == "Enfoque" <==> t.mode == Work)
    ensures w.Some? ==> w.value.caption in {"Enfoque", "Descanso"}
  {
    if t.isActive then
      Some(Widget(if t.mode == Work then "Enfoque" else "Descanso", FormatTime(t.timeLeft)))
    else None
  }

  /** The widget's clock shows the engine's countdown. */
  lemma ViewShowsCountdown(t: Timer)
    requires t.isActive && t.timeLeft >= 0
    ensures ReadClock(View(t).value.clock) == Some(t.timeLeft)
  {
    ReadFormatTime(t.timeLeft);
  }

  /** The pause button is `pauseTimer`: the widget then disappears. */
  lemma PauseHides(t: Timer)
    ensures View(Pause(t)).None?
  {
  }
}
