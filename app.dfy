/**
 * The countdown session of src/renderer/src/App.tsx. The wall clock is an
 * input (`now`, epoch milliseconds); `setInterval`/`clearInterval` become
 * the `ticking` flag, and each host call through `window.api` is appended
 * to a log. The state machine is given twice: as pure step functions on a
 * `Session` value, about which the lemmas speak, and as a class whose
 * methods update fields one by one and are proved to follow those steps.
 */
module App {
  import opened Wrappers

  /** A call through the `window.api` interface declared in the same file. */
  datatype ApiCall =
    | ResizeWindow(width: int, height: int, isBottomRight: bool)
    | SetFullScreen(isFullScreen: bool)

  /** The layout requested when a countdown starts: compact, bottom-right. */
  const RUNNING_LAYOUT: ApiCall := ResizeWindow(400, 145, true)
  /** The layout requested when the timer stops: full size, centred. */
  const IDLE_LAYOUT: ApiCall := ResizeWindow(900, 670, false)
  /** The literal warning threshold of the tick, in seconds. */
  const WARNING_SECONDS: int := 300

  /** The component state of `App`, plus whether its interval is running. */
  datatype Session = Session(
    endTime: Option<int>,
    remainingTime: int,
    showEndMessage: bool,
    welcomeMessage: string,
    showWelcomeMessage: bool,
    showMessageInput: bool,
    showWarning: bool,
    ticking: bool)

  /** An interval runs only while there is an end time. */
  predicate Consistent(s: Session)
  {
    s.ticking ==> s.endTime.Some?
  }

  /** The state on first render. */
  const INITIAL: Session := Session(None, 0, false, "", false, true, false, false)

  /** A user-triggered step: the new state and the host calls it makes, in order. */
  datatype Transition = Transition(after: Session, calls: seq<ApiCall>)

  /** `startTimer(minutes)` at time `now`; `minutes` is not validated by its callers. */
  function Started(s: Session, minutes: int, now: int): (t: Transition)
    ensures t.after.endTime == Some(now + minutes * 60000)
    ensures t.after.remainingTime == minutes * 60
    ensures !t.after.showWarning && t.after.ticking && Consistent(t.after)
    ensures t.calls == [RUNNING_LAYOUT]
    ensures t.after.showEndMessage == s.showEndMessage && t.after.welcomeMessage == s.welcomeMessage
    ensures t.after.showWelcomeMessage == s.showWelcomeMessage && t.after.showMessageInput == s.showMessageInput
  {
    Transition(
      s.(endTime := Some(now + minutes * 60000), remainingTime := minutes * 60, showWarning := false, ticking := true),
      [RUNNING_LAYOUT])
  }

  /** `stopTimer()`: back to the idle layout, with the message input shown again. */
  function Stopped(s: Session): (t: Transition)
    ensures t.after.endTime.None? && t.after.remainingTime == 0
    ensures !t.after.showWarning && !t.after.showEndMessage && !t.after.showWelcomeMessage
    ensures t.after.showMessageInput && !t.after.ticking && Consistent(t.after)
    ensures t.after.welcomeMessage == s.welcomeMessage
    ensures t.calls == [IDLE_LAYOUT]
  {
    Transition(
      s.(endTime := None, remainingTime := 0, showWarning := false, showEndMessage := false,
         showWelcomeMessage := false, showMessageInput := true, ticking := false),
      [IDLE_LAYOUT])
  }

  /** `confirmToStopTimer()`, with the answer of the confirmation dialog as input. */
  function ConfirmedStop(s: Session, confirmed: bool): (t: Transition)
    ensures !confirmed ==> t.after == s && t.calls == []
    ensures confirmed ==> t == Stopped(s)
  {
    if confirmed then Stopped(s) else Transition(s, [])
  }

  /** The whole seconds left at `now`, never negative: `max(0, floor((endTime - now) / 1000))`. */
  function RemainingAt(endTime: int, now: int): (r: int)
    ensures r >= 0
    ensures r == 0 <==> endTime - now < 1000
    ensures r > 0 ==> 1000 * r <= endTime - now < 1000 * r + 1000
  {
    var diff := (endTime - now) / 1000;
    if diff > 0 then diff else 0
  }

  /** A later clock reading never leaves more time. */
  lemma RemainingAtAntitone(endTime: int, earlier: int, later: int)
    requires earlier <= later
    ensures RemainingAt(endTime, later) <= RemainingAt(endTime, earlier)
  {
  }

  /** Which branch of the interval body a tick took. */
  datatype TickOutcome = Counting | WarningRaised | Finished

  /** One run of the interval body: its branch, the new state and the host calls. */
  datatype TickResult = TickResult(outcome: TickOutcome, after: Session, calls: seq<ApiCall>)

  /**
   * The interval body at time `now`. Finishing clears the interval; when it
   * also clears a showing warning, the effect that depends on the warning
   * runs again and, the end time being still set, builds a new interval.
   */
  function Ticked(s: Session, now: int): (t: TickResult)
    requires s.endTime.Some?
    ensures t.after.remainingTime == RemainingAt(s.endTime.value, now)
    ensures t.outcome == WarningRaised <==> 0 < t.after.remainingTime <= WARNING_SECONDS && !s.showWarning
    ensures t.outcome == Finished <==> t.after.remainingTime == 0
    ensures t.calls == if t.outcome == Counting then [] else [SetFullScreen(true)]
    ensures t.after.showWarning == (if t.outcome == Counting then s.showWarning else t.outcome == WarningRaised)
    ensures t.after.showEndMessage == (s.showEndMessage || t.outcome == Finished)
    ensures t.after.ticking == if t.outcome == Finished then s.showWarning else s.ticking
    ensures t.after.endTime == s.endTime && t.after.welcomeMessage == s.welcomeMessage
    ensures t.after.showWelcomeMessage == s.showWelcomeMessage && t.after.showMessageInput == s.showMessageInput
  {
    var diff := (s.endTime.value - now) / 1000;
    var s' := s.(remainingTime := if diff > 0 then diff else 0);
    if diff <= WARNING_SECONDS && diff > 0 && !s.showWarning then
      TickResult(WarningRaised, s'.(showWarning := true), [SetFullScreen(true)])
    else if diff <= 0 then
      TickResult(Finished, s'.(showEndMessage := true, showWarning := false, ticking := s.showWarning), [SetFullScreen(true)])
    else
      TickResult(Counting, s', [])
  }

  /**
   * The ticks an interval delivers at the successive clock readings `nows`:
   * none once the interval has been cleared.
   */
  function Ticks(s: Session, nows: seq<int>): (t: seq<TickResult>)
    requires Consistent(s)
    ensures |t| <= |nows|
    ensures !s.ticking ==> t == []
    decreases |nows|
  {
    if nows == [] || !s.ticking then []
    else
      var r := Ticked(s, nows[0]);
      [r] + Ticks(r.after, nows[1..])
  }

  /** How many ticks of a run took the given branch. */
  function CountOutcome(t: seq<TickResult>, o: TickOutcome): (n: nat)
    ensures n <= |t|
  {
    if t == [] then 0 else (if t[0].outcome == o then 1 else 0) + CountOutcome(t[1..], o)
  }

  /** Clock readings taken in order: the clock is never set back. */
  predicate NonDecreasing(nows: seq<int>)
  {
    forall i, j :: 0 <= i <= j < |nows| ==> nows[i] <= nows[j]
  }

  /**
   * Every tick of a run keeps the end time, shows the time left at its own
   * clock reading, and finishes exactly when no whole second is left.
   */
  lemma {:induction false} TicksFollowClock(s: Session, nows: seq<int>)
    requires Consistent(s)
    ensures var t := Ticks(s, nows);
      (t != [] ==> s.endTime.Some?) &&
      forall i :: 0 <= i < |t| ==>
        t[i].after.endTime == s.endTime &&
        t[i].after.remainingTime == RemainingAt(s.endTime.value, nows[i]) &&
        (t[i].outcome == Finished <==> t[i].after.remainingTime == 0)
    decreases |nows|
  {
    if nows != [] && s.ticking {
      var r := Ticked(s, nows[0]);
      TicksFollowClock(r.after, nows[1..]);
    }
  }

  /** While the clock is not set back, the time left never grows from one tick to a later one. */
  lemma RemainingNeverIncreases(s: Session, nows: seq<int>)
    requires Consistent(s) && NonDecreasing(nows)
    ensures var t := Ticks(s, nows);
      forall i, j :: 0 <= i <= j < |t| ==> 0 <= t[j].after.remainingTime <= t[i].after.remainingTime
  {
    var t := Ticks(s, nows);
    TicksFollowClock(s, nows);
    forall i, j | 0 <= i <= j < |t|
      ensures 0 <= t[j].after.remainingTime <= t[i].after.remainingTime
    {
      RemainingAtAntitone(s.endTime.value, nows[i], nows[j]);
    }
  }

  /** A run none of whose ticks took the given branch counts none of it. */
  lemma {:induction false} CountOutcomeNone(t: seq<TickResult>, o: TickOutcome)
    requires forall i :: 0 <= i < |t| ==> t[i].outcome != o
    ensures CountOutcome(t, o) == 0
  {
    if t != [] {
      CountOutcomeNone(t[1..], o);
    }
  }

  /**
   * Once the time is up at the first reading, a run whose clock is not set
   * back does nothing but finish.
   */
  lemma ExpiredRunOnlyFinishes(s: Session, nows: seq<int>)
    requires Consistent(s) && NonDecreasing(nows)
    requires s.ticking && nows != [] ==> RemainingAt(s.endTime.value, nows[0]) == 0
    ensures forall i :: 0 <= i < |Ticks(s, nows)| ==> Ticks(s, nows)[i].outcome == Finished
  {
    var t := Ticks(s, nows);
    TicksFollowClock(s, nows);
    forall i | 0 <= i < |t| ensures t[i].outcome == Finished {
      RemainingAtAntitone(s.endTime.value, nows[0], nows[i]);
    }
  }

  /**
   * While the clock is not set back, the warning is raised at most once,
   * and not at all while it is already showing: only finishing clears it,
   * and after a finish the time stays up.
   */
  lemma {:induction false} WarningAtMostOnce(s: Session, nows: seq<int>)
    requires Consistent(s) && NonDecreasing(nows)
    ensures CountOutcome(Ticks(s, nows), WarningRaised) <= if s.showWarning then 0 else 1
    decreases |nows|
  {
    if nows != [] && s.ticking {
      var r := Ticked(s, nows[0]);
      var rest := Ticks(r.after, nows[1..]);
      assert Ticks(s, nows)[1..] == rest;
      assert NonDecreasing(nows[1..]) by {
        forall i, j | 0 <= i <= j < |nows[1..]| ensures nows[1..][i] <= nows[1..][j] {
          assert nows[1..][i] == nows[i + 1] && nows[1..][j] == nows[j + 1];
        }
      }
      if r.outcome == Finished {
        if r.after.ticking && |nows| > 1 {
          RemainingAtAntitone(s.endTime.value, nows[0], nows[1]);
          assert nows[1..][0] == nows[1];
        }
        ExpiredRunOnlyFinishes(r.after, nows[1..]);
        CountOutcomeNone(rest, WarningRaised);
      } else {
        WarningAtMostOnce(r.after, nows[1..]);
      }
    }
  }

  /**
   * While the clock is not set back, finishing ends a run: a finish that
   * clears no warning is its last tick, and one that clears a showing
   * warning is followed by exactly one more tick of the rebuilt interval,
   * which finishes again and stops. A run that stops before the clock
   * readings run out ends with a finish.
   */
  lemma {:induction false} FinishEndsTicking(s: Session, nows: seq<int>)
    requires Consistent(s) && NonDecreasing(nows)
    ensures var t := Ticks(s, nows);
      (forall i :: 0 <= i < |t| && t[i].outcome == Finished ==>
        |t| <= i + 2 && (i + 1 < |t| ==> t[i + 1].outcome == Finished)) &&
      (s.ticking && |t| < |nows| ==> t != [] && t[|t| - 1].outcome == Finished)
    decreases |nows|
  {
    if nows != [] && s.ticking {
      var r := Ticked(s, nows[0]);
      var t := Ticks(s, nows);
      assert t[1..] == Ticks(r.after, nows[1..]);
      if r.outcome == Finished {
        if r.after.ticking && |nows| > 1 {
          RemainingAtAntitone(s.endTime.value, nows[0], nows[1]);
          assert nows[1..][0] == nows[1];
          var r2 := Ticked(r.after, nows[1]);
          assert r2.outcome == Finished && !r2.after.ticking;
          assert Ticks(r2.after, nows[1..][1..]) == [];
          assert t == [r, r2];
        } else {
          assert t == [r];
        }
      } else {
        assert NonDecreasing(nows[1..]) by {
          forall i, j | 0 <= i <= j < |nows[1..]| ensures nows[1..][i] <= nows[1..][j] {
            assert nows[1..][i] == nows[i + 1] && nows[1..][j] == nows[j + 1];
          }
        }
        FinishEndsTicking(r.after, nows[1..]);
      }
    }
  }

  /**
   * A second finish needs a warning to clear: whatever the clock readings,
   * a run finishes at most once more than the warnings it raises or starts
   * with.
   */
  lemma {:induction false} FinishesFollowWarnings(s: Session, nows: seq<int>)
    requires Consistent(s)
    ensures var t := Ticks(s, nows);
      CountOutcome(t, Finished) <= 1 + CountOutcome(t, WarningRaised) + (if s.showWarning then 1 else 0)
    decreases |nows|
  {
    if nows != [] && s.ticking {
      var r := Ticked(s, nows[0]);
      assert Ticks(s, nows)[1..] == Ticks(r.after, nows[1..]);
      FinishesFollowWarnings(r.after, nows[1..]);
    }
  }

  /**
   * Over a session started by `startTimer` whose clock is not set back, the
   * warning is raised at most once, and the finish screen is reached at most
   * once more than that: twice only when the warning was showing.
   */
  lemma SessionWarnsAtMostOnce(s: Session, minutes: int, now: int, nows: seq<int>)
    requires NonDecreasing(nows)
    ensures var t := Ticks(Started(s, minutes, now).after, nows);
      CountOutcome(t, WarningRaised) <= 1 &&
      CountOutcome(t, Finished) <= 1 + CountOutcome(t, WarningRaised)
  {
    var s0 := Started(s, minutes, now).after;
    WarningAtMostOnce(s0, nows);
    FinishesFollowWarnings(s0, nows);
  }

  /**
   * With the clock set back after a finish that cleared the warning, the
   * rebuilt interval raises the warning a second time: a ten-minute lesson
   * read at 400 s, 600 s and then 500 s.
   */
  lemma ClockSetBackWarnsAgain()
    ensures var t := Ticks(Started(INITIAL, 10, 0).after, [400000, 600000, 500000]);
      |t| == 3 && t[0].outcome == WarningRaised && t[1].outcome == Finished && t[2].outcome == WarningRaised
  {
    var s0 := Started(INITIAL, 10, 0).after;
    var r0 := Ticked(s0, 400000);
    var r1 := Ticked(r0.after, 600000);
    var r2 := Ticked(r1.after, 500000);
    assert [400000, 600000, 500000][1..] == [600000, 500000];
    assert [600000, 500000][1..] == [500000];
    assert Ticks(r1.after, [500000]) == [r2] + Ticks(r2.after, []);
    assert Ticks(r0.after, [600000, 500000]) == [r1, r2];
  }

  /** Right after a start with a non-negative duration, a tick at a later time shows no more than the starting seconds. */
  lemma FirstTickNotAboveStart(s: Session, minutes: int, now: int, later: int)
    requires minutes >= 0 && now <= later
    ensures Ticked(Started(s, minutes, now).after, later).after.remainingTime <= minutes * 60
  {
  }

  /** A negative custom duration shows negative seconds at the start, and the first tick raises them to zero. */
  lemma NegativeStartThenTickGrows(s: Session, now: int)
    ensures Started(s, -1, now).after.remainingTime == -60
    ensures Ticked(Started(s, -1, now).after, now).after.remainingTime == 0
    ensures Ticked(Started(s, -1, now).after, now).outcome == Finished
  {
  }

  /** The characters JavaScript's `String.prototype.trim` removes: white space and line terminators. */
  predicate IsJsWhitespace(c: char)
  {
    c == '\t' || c == '\n' || c == '\U{000B}' || c == '\U{000C}' || c == '\r' || c == ' ' ||
    c == '\U{00A0}' || c == '\U{1680}' || ('\U{2000}' <= c <= '\U{200A}') ||
    c == '\U{2028}' || c == '\U{2029}' || c == '\U{202F}' || c == '\U{205F}' ||
    c == '\U{3000}' || c == '\U{FEFF}'
  }

  /** The text with its leading white space removed. */
  function TrimStart(s: string): (r: string)
    ensures |r| <= |s| && r == s[|s| - |r|..]
    ensures r == [] || !IsJsWhitespace(r[0])
    ensures forall i :: 0 <= i < |s| - |r| ==> IsJsWhitespace(s[i])
  {
    if s != [] && IsJsWhitespace(s[0]) then TrimStart(s[1..]) else s
  }

  /** The text with its trailing white space removed. */
  function TrimEnd(s: string): (r: string)
    ensures |r| <= |s| && r == s[..|r|]
    ensures r == [] || !IsJsWhitespace(r[|r| - 1])
    ensures forall i :: |r| <= i < |s| ==> IsJsWhitespace(s[i])
  {
    if s != [] && IsJsWhitespace(s[|s| - 1]) then TrimEnd(s[..|s| - 1]) else s
  }

  /** `text.trim()`: empty exactly when every character is white space. */
  function Trim(s: string): (r: string)
    ensures r == [] <==> forall i :: 0 <= i < |s| ==> IsJsWhitespace(s[i])
  {
    var u := TrimStart(s);
    var r := TrimEnd(u);
    assert r == [] ==> u == [];
    r
  }

  /** `handleConfirmMessage()`: shows a message that is not blank and hides its input. */
  function MessageConfirmed(s: Session): (r: Session)
    ensures (exists i :: 0 <= i < |s.welcomeMessage| && !IsJsWhitespace(s.welcomeMessage[i])) ==>
      r == s.(showWelcomeMessage := true, showMessageInput := false)
    ensures (forall i :: 0 <= i < |s.welcomeMessage| ==> IsJsWhitespace(s.welcomeMessage[i])) ==> r == s
  {
    if Trim(s.welcomeMessage) != "" then s.(showWelcomeMessage := true, showMessageInput := false) else s
  }

  /** `handleEditMessage()`: hides the message and shows its input again. */
  function MessageEdited(s: Session): (r: Session)
    ensures r.showMessageInput && !r.showWelcomeMessage
    ensures r.(showMessageInput := s.showMessageInput, showWelcomeMessage := s.showWelcomeMessage) == s
  {
    s.(showMessageInput := true, showWelcomeMessage := false)
  }

  /** The `App` component's state, updated field by field as its handlers do. */
  class Timer {
    var endTime: Option<int>
    var remainingTime: int
    var showEndMessage: bool
    var welcomeMessage: string
    var showWelcomeMessage: bool
    var showMessageInput: bool
    var showWarning: bool
    var ticking: bool
    /** Every `window.api` call made so far, oldest first. */
    var calls: seq<ApiCall>

    /** The fields as a `Session` value. */
    function State(): Session
      reads this
    {
      Session(endTime, remainingTime, showEndMessage, welcomeMessage,
              showWelcomeMessage, showMessageInput, showWarning, ticking)
    }

    ghost predicate Valid()
      reads this
    {
      Consistent(State())
    }

    /** The initial `useState` values. */
    constructor ()
      ensures Valid() && State() == INITIAL && calls == []
    {
      endTime := None;
      remainingTime := 0;
      showEndMessage := false;
      welcomeMessage := "";
      showWelcomeMessage := false;
      showMessageInput := true;
      showWarning := false;
      ticking := false;
      calls := [];
    }

    /** `startTimer(minutes)` at time `now`; the new end time (re)starts the interval. */
    method Start(minutes: int, now: int)
      modifies this
      ensures Valid()
      ensures State() == Started(old(State()), minutes, now).after
      ensures calls == old(calls) + Started(old(State()), minutes, now).calls
    {
      endTime := Some(now + minutes * 60000);
      remainingTime := minutes * 60;
      showWarning := false;
      ticking := true;
      calls := calls + [RUNNING_LAYOUT];
    }

    /** The interval body at time `now`; runs only while the interval does. */
    method Tick(now: int)
      requires Valid() && ticking
      modifies this
      ensures Valid()
      ensures State() == Ticked(old(State()), now).after
      ensures calls == old(calls) + Ticked(old(State()), now).calls
    {
      var diff := (endTime.value - now) / 1000;
      remainingTime := if diff > 0 then diff else 0;
      if diff <= WARNING_SECONDS && diff > 0 && !showWarning {
        showWarning := true;
        calls := calls + [SetFullScreen(true)];
      } else if diff <= 0 {
        ticking := showWarning;
        showEndMessage := true;
        showWarning := false;
        calls := calls + [SetFullScreen(true)];
      }
    }

    /** `stopTimer()`; clearing the end time clears the interval. */
    method Stop()
      modifies this
      ensures Valid()
      ensures State() == Stopped(old(State())).after
      ensures calls == old(calls) + Stopped(old(State())).calls
    {
      endTime := None;
      ticking := false;
      remainingTime := 0;
      showWarning := false;
      showEndMessage := false;
      showWelcomeMessage := false;
      showMessageInput := true;
      calls := calls + [IDLE_LAYOUT];
    }

    /** `confirmToStopTimer()`; `confirmed` is the user's answer to the dialog. */
    method ConfirmStop(confirmed: bool)
      requires Valid()
      modifies this
      ensures Valid()
      ensures State() == ConfirmedStop(old(State()), confirmed).after
      ensures calls == old(calls) + ConfirmedStop(old(State()), confirmed).calls
    {
      if confirmed {
        Stop();
      }
    }

    /** The message field's `onChange`: stores the typed text. */
    method TypeMessage(text: string)
      requires Valid()
      modifies this
      ensures Valid()
      ensures State() == old(State()).(welcomeMessage := text) && calls == old(calls)
    {
      welcomeMessage := text;
    }

    /** `handleConfirmMessage()`. */
    method ConfirmMessage()
      requires Valid()
      modifies this
      ensures Valid()
      ensures State() == MessageConfirmed(old(State())) && calls == old(calls)
    {
      if Trim(welcomeMessage) != "" {
        showWelcomeMessage := true;
        showMessageInput := false;
      }
    }

    /** `handleEditMessage()`. */
    method EditMessage()
      requires Valid()
      modifies this
      ensures Valid()
      ensures State() == MessageEdited(old(State())) && calls == old(calls)
    {
      showMessageInput := true;
      showWelcomeMessage := false;
    }
  }

  /**
   * A one-minute lesson with the clock read at the start, 55 s, 60 s and
   * 61 s later: the warning comes with the second reading and the finish
   * screen with the third; clearing the warning rebuilds the interval, whose
   * first tick finishes again and stops it.
   */
  method OneMinuteLesson()
  {
    var timer := new Timer();
    timer.Start(1, 0);
    assert timer.remainingTime == 60 && timer.calls == [RUNNING_LAYOUT];
    timer.Tick(55000);
    assert timer.remainingTime == 5 && timer.showWarning;
    assert timer.calls == [RUNNING_LAYOUT, SetFullScreen(true)];
    timer.Tick(60000);
    assert timer.remainingTime == 0 && timer.showEndMessage && !timer.showWarning && timer.ticking;
    assert timer.calls == [RUNNING_LAYOUT, SetFullScreen(true), SetFullScreen(true)];
    timer.Tick(61000);
    assert timer.remainingTime == 0 && timer.showEndMessage && !timer.ticking;
    assert timer.calls == [RUNNING_LAYOUT, SetFullScreen(true), SetFullScreen(true), SetFullScreen(true)];
    timer.ConfirmStop(true);
    assert timer.State() == Stopped(Ticked(Ticked(Ticked(Started(INITIAL, 1, 0).after, 55000).after, 60000).after, 61000).after).after;
    assert timer.calls[|timer.calls| - 1] == IDLE_LAYOUT;
  }
}
