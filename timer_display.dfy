/**
 * The remaining-time panel of src/renderer/src/components/TimerDisplay.tsx:
 * the minutes/seconds split of the remaining seconds and the two rules
 * driven by the `isTimeRunningOut` prop.
 */
module TimerDisplay {
  import opened Wrappers

  /**
   * JavaScript's `a % 60` on an integer: the remainder takes the sign of the
   * dividend (the quotient truncates toward zero), unlike Dafny's `%`.
   */
  function JsRemainder60(a: int): (r: int)
    ensures -60 < r < 60
    ensures a >= 0 ==> r >= 0
    ensures a <= 0 ==> r <= 0
    ensures (a - r) % 60 == 0
  {
    if a >= 0 then a % 60 else -((-a) % 60)
  }

  /** What the panel prints for a remaining time: whole minutes and seconds. */
  datatype Clock = Clock(minutes: int, seconds: int)

  /**
   * `Math.floor(remainingTime / 60)` and `remainingTime % 60`. Dafny's `/`
   * by a positive divisor already rounds toward negative infinity.
   */
  function Split(remainingTime: int): (c: Clock)
    ensures remainingTime >= 0 ==> c.minutes >= 0 && 0 <= c.seconds < 60
    ensures remainingTime >= 0 ==> 60 * c.minutes + c.seconds == remainingTime
    ensures remainingTime < 0 ==> c.minutes < 0
    ensures 60 * c.minutes <= remainingTime < 60 * c.minutes + 60
  {
    Clock(remainingTime / 60, JsRemainder60(remainingTime))
  }

  /** For a non-negative time the split is the only minutes/seconds pair. */
  lemma SplitUnique(remainingTime: int, m: int, s: int)
    requires remainingTime >= 0
    requires 0 <= s < 60 && 60 * m + s == remainingTime
    ensures Split(remainingTime) == Clock(m, s)
  {
  }

  /** Euclidean division by 60 is determined by any quotient and remainder in range. */
  lemma DivModSixty(x: int, q: int, e: int)
    requires 0 <= e < 60 && x == 60 * q + e
    ensures x / 60 == q && x % 60 == e
  {
  }

  /**
   * On a negative dividend JavaScript's remainder is Dafny's remainder shifted
   * down by 60, unless the dividend is a whole multiple of 60.
   */
  lemma {:induction false} JsRemainder60OfNegative(a: int)
    requires a < 0
    ensures JsRemainder60(a) == if a % 60 == 0 then 0 else a % 60 - 60
  {
    var q, e := a / 60, a % 60;
    if e == 0 {
      DivModSixty(-a, -q, 0);
    } else {
      DivModSixty(-a, -q - 1, 60 - e);
    }
  }

  /**
   * The printed pair adds back up to the remaining time exactly when that
   * time is non-negative or a whole number of minutes: for a negative,
   * non-whole time the floor and the truncating remainder disagree.
   */
  lemma {:induction false} SplitAddsUpIff(remainingTime: int)
    ensures var c := Split(remainingTime);
      60 * c.minutes + c.seconds == remainingTime <==> remainingTime >= 0 || remainingTime % 60 == 0
  {
    if remainingTime < 0 {
      JsRemainder60OfNegative(remainingTime);
    }
  }

  /** The colour of the remaining-time text. */
  datatype TextColor = RedText | BlackText

  /** The panel as rendered: the end time, the split, its colour and the optional warning line. */
  datatype Panel = Panel(endTime: int, clock: Clock, color: TextColor, warningLine: Option<int>)

  /**
   * The panel for the given props; `warningMinutes` is the value the panel
   * reads from the settings hook to fill in the warning sentence.
   */
  function Render(isTimeRunningOut: bool, remainingTime: int, endTime: int, warningMinutes: int): (p: Panel)
    ensures p.clock == Split(remainingTime) && p.endTime == endTime
    ensures p.color == RedText <==> isTimeRunningOut
    ensures p.warningLine.Some? <==> isTimeRunningOut
    ensures p.warningLine.Some? ==> p.warningLine.value == warningMinutes
  {
    Panel(
      endTime,
      Split(remainingTime),
      if isTimeRunningOut then RedText else BlackText,
      if isTimeRunningOut then Some(warningMinutes) else None)
  }
}
