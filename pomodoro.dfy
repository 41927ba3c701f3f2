/** The Pomodoro timer of the productivity page: a focus/break cycle with a
    countdown, a running flag and a count of completed focus sessions.

    `TimerState` and its member functions say what each handler does to the four
    pieces of React state; the class `Timer` holds that state in fields and its
    methods update them in place, each proved to agree with the function. */
module Pomodoro {
  import opened Optional
  import opened Text

  datatype Mode = Focus | ShortBreak | LongBreak

  /** Minutes per mode and the long-break cadence. */
  datatype Settings = Settings(focusTime: nat, shortBreakTime: nat, longBreakTime: nat, longBreakInterval: nat)
  {
    predicate Valid()
    {
      focusTime > 0 && shortBreakTime > 0 && longBreakTime > 0 && longBreakInterval > 0
    }

    /** Full length of a session in `mode`, in seconds. */
    function Duration(mode: Mode): nat
    {
      match mode
      case Focus => focusTime * 60
      case ShortBreak => shortBreakTime * 60
      case LongBreak => longBreakTime * 60
    }
  }

  /** The settings the page starts with and never changes. */
  const DefaultSettings := Settings(25, 5, 15, 4)

  /** `getNextTimerMode`: after focus a long break on every `interval`-th completed
      focus session (counting the one just finished), otherwise a short break;
      after any break, focus. */
  function NextMode(mode: Mode, count: nat, interval: nat): Mode
    requires interval > 0
  {
    if mode == Focus then
      if (count + 1) % interval == 0 then LongBreak else ShortBreak
    else
      Focus
  }

  /** What `handleTimerComplete` reports in its toast: the finished and the next mode. */
  datatype Completion = Completion(finished: Mode, next: Mode)

  datatype TimerState = TimerState(mode: Mode, timeLeft: nat, isActive: bool, count: nat)
  {
    /** The countdown never exceeds the full length of the current mode. */
    predicate Inv(settings: Settings)
    {
      timeLeft <= settings.Duration(mode)
    }

    /** `handleTimerComplete(getNextTimerMode())`. */
    function Complete(settings: Settings): (t: TimerState)
      requires settings.Valid()
      ensures t.Inv(settings) && t.timeLeft == settings.Duration(t.mode) && t.timeLeft > 0
      ensures t.isActive == isActive
      ensures (mode == Focus) == (t.mode != Focus)
    {
      var next := NextMode(mode, count, settings.longBreakInterval);
      TimerState(next, settings.Duration(next), isActive, if mode == Focus then count + 1 else count)
    }

    /** One firing of the timer effect: a one-second decrement while running with
        time left, the completion when running at zero, nothing when stopped. */
    function Tick(settings: Settings): (t: TimerState)
      requires settings.Valid()
      ensures Inv(settings) ==> t.Inv(settings)
      ensures !isActive ==> t == this
    {
      if isActive && timeLeft > 0 then this.(timeLeft := timeLeft - 1)
      else if isActive then Complete(settings)
      else this
    }

    /** The completion a tick reports, if it completes the session. */
    function TickEvent(settings: Settings): (e: Option<Completion>)
      requires settings.Valid()
      ensures e.Some? ==> e.value == Completion(mode, Tick(settings).mode) && Tick(settings) == Complete(settings)
      ensures e.None? ==> Tick(settings).mode == mode && Tick(settings).count == count
    {
      if isActive && timeLeft == 0 then Some(Completion(mode, NextMode(mode, count, settings.longBreakInterval)))
      else None
    }

    function Start(): (t: TimerState)
      ensures t.isActive && t.mode == mode && t.timeLeft == timeLeft && t.count == count
    {
      this.(isActive := true)
    }

    function Pause(): (t: TimerState)
      ensures !t.isActive && t.mode == mode && t.timeLeft == timeLeft && t.count == count
    {
      this.(isActive := false)
    }

    /** `resetTimer`: stop and restore the full length of the current mode. */
    function Reset(settings: Settings): (t: TimerState)
      ensures t.Inv(settings) && !t.isActive
      ensures t.mode == mode && t.count == count && t.timeLeft == settings.Duration(mode)
    {
      TimerState(mode, settings.Duration(mode), false, count)
    }

    /** `changeTimerMode(m)`: stop, switch to `m` at its full length. */
    function ChangeMode(settings: Settings, m: Mode): (t: TimerState)
      ensures t.Inv(settings) && !t.isActive
      ensures t.mode == m && t.count == count && t.timeLeft == settings.Duration(m)
    {
      TimerState(m, settings.Duration(m), false, count)
    }

    /** The skip button: `changeTimerMode(getNextTimerMode())`. */
    function Skip(settings: Settings): TimerState
      requires settings.Valid()
    {
      ChangeMode(settings, NextMode(mode, count, settings.longBreakInterval))
    }
  }

  function Initial(settings: Settings): (s: TimerState)
    ensures s.Inv(settings) && !s.isActive && s.mode == Focus && s.count == 0
  {
    TimerState(Focus, settings.Duration(Focus), false, 0)
  }

  /** The user-visible operations of the timer. */
  datatype Op = TickOp | StartOp | PauseOp | ResetOp | ChangeModeOp(m: Mode) | SkipOp

  function Apply(settings: Settings, s: TimerState, op: Op): TimerState
    requires settings.Valid()
  {
    match op
    case TickOp => s.Tick(settings)
    case StartOp => s.Start()
    case PauseOp => s.Pause()
    case ResetOp => s.Reset(settings)
    case ChangeModeOp(m) => s.ChangeMode(settings, m)
    case SkipOp => s.Skip(settings)
  }

  function Run(settings: Settings, s: TimerState, ops: seq<Op>): TimerState
    requires settings.Valid()
    decreases |ops|
  {
    if ops == [] then s else Run(settings, Apply(settings, s, ops[0]), ops[1..])
  }

  /** `n` consecutive ticks. */
  function Ticks(settings: Settings, s: TimerState, n: nat): TimerState
    requires settings.Valid()
    decreases n
  {
    if n == 0 then s else Ticks(settings, s.Tick(settings), n - 1)
  }

  /** `n` consecutive completions. */
  function Completions(settings: Settings, s: TimerState, n: nat): TimerState
    requires settings.Valid()
    decreases n
  {
    if n == 0 then s else Completions(settings, s.Complete(settings), n - 1)
  }

  /** A tick lowers the countdown only while running with time left, and then by
      exactly one second with nothing else changed; a running timer at zero
      completes instead. */
  lemma TickRule(settings: Settings, s: TimerState)
    requires settings.Valid()
    ensures s.Tick(settings).timeLeft < s.timeLeft <==> s.isActive && s.timeLeft > 0
    ensures s.isActive && s.timeLeft > 0 ==> s.Tick(settings) == s.(timeLeft := s.timeLeft - 1)
    ensures s.isActive && s.timeLeft == 0 ==> s.Tick(settings) == s.Complete(settings)
  {
  }

  /** From the initial state, every sequence of operations keeps
      0 <= timeLeft <= the full length of the current mode. */
  lemma {:induction false} RunKeepsInvariant(settings: Settings, s: TimerState, ops: seq<Op>)
    requires settings.Valid() && s.Inv(settings)
    ensures Run(settings, s, ops).Inv(settings)
    decreases |ops|
  {
    if ops != [] {
      var t := Apply(settings, s, ops[0]);
      assert t.Inv(settings);
      RunKeepsInvariant(settings, t, ops[1..]);
    }
  }

  lemma InitialRunKeepsInvariant(settings: Settings, ops: seq<Op>)
    requires settings.Valid()
    ensures Run(settings, Initial(settings), ops).Inv(settings)
  {
    RunKeepsInvariant(settings, Initial(settings), ops);
  }

  /** While running, `k` ticks take exactly `k` seconds off the countdown and
      change nothing else, as long as the countdown does not pass zero. */
  lemma {:induction false} TicksCountDown(settings: Settings, s: TimerState, k: nat)
    requires settings.Valid() && s.isActive && k <= s.timeLeft
    ensures Ticks(settings, s, k) == s.(timeLeft := s.timeLeft - k)
    decreases k
  {
    if k > 0 {
      TicksCountDown(settings, s.(timeLeft := s.timeLeft - 1), k - 1);
    }
  }

  /** A stopped timer ignores any number of ticks. */
  lemma {:induction false} PausedTicksIdle(settings: Settings, s: TimerState, n: nat)
    requires settings.Valid() && !s.isActive
    ensures Ticks(settings, s, n) == s
  {
    if n > 0 {
      PausedTicksIdle(settings, s, n - 1);
    }
  }

  /** A started 25-minute focus session reaches 00:00 after 1500 ticks, still in
      focus and still running; the next tick completes it, counts it and moves
      to a running five-minute short break. */
  lemma FirstFocusSession()
    ensures var s := Initial(DefaultSettings).Start();
            var z := Ticks(DefaultSettings, s, 1500);
            z == TimerState(Focus, 0, true, 0) &&
            z.Tick(DefaultSettings) == TimerState(ShortBreak, 300, true, 1) &&
            z.TickEvent(DefaultSettings) == Some(Completion(Focus, ShortBreak))
  {
    TicksCountDown(DefaultSettings, Initial(DefaultSettings).Start(), 1500);
  }

  /** The cadence of completions from a focus session with count `c`: after `2k`
      completions the timer is back in focus with `k` more sessions counted; the
      completion in between is a long break exactly when the session it follows
      is a multiple of the interval. */
  lemma {:induction false} CompletionCadence(settings: Settings, s: TimerState, k: nat)
    requires settings.Valid() && s.mode == Focus
    ensures Completions(settings, s, 2 * k).mode == Focus
    ensures Completions(settings, s, 2 * k).count == s.count + k
    ensures Completions(settings, s, 2 * k + 1).count == s.count + k + 1
    ensures Completions(settings, s, 2 * k + 1).mode ==
            if (s.count + k + 1) % settings.longBreakInterval == 0 then LongBreak else ShortBreak
    decreases k
  {
    if k > 0 {
      var b := s.Complete(settings);
      var f := b.Complete(settings);
      assert f.mode == Focus && f.count == s.count + 1;
      CompletionCadence(settings, f, k - 1);
      assert Completions(settings, s, 2 * k) == Completions(settings, f, 2 * (k - 1));
      assert Completions(settings, s, 2 * k + 1) == Completions(settings, f, 2 * (k - 1) + 1);
    }
  }

  /** With the default interval of 4, the first three focus sessions are followed
      by short breaks and the fourth by a long break. */
  lemma DefaultCadence()
    ensures var s := Initial(DefaultSettings);
            Completions(DefaultSettings, s, 1).mode == ShortBreak &&
            Completions(DefaultSettings, s, 3).mode == ShortBreak &&
            Completions(DefaultSettings, s, 5).mode == ShortBreak &&
            Completions(DefaultSettings, s, 7).mode == LongBreak &&
            Completions(DefaultSettings, s, 7).count == 4
  {
    var s := Initial(DefaultSettings);
    CompletionCadence(DefaultSettings, s, 0);
    CompletionCadence(DefaultSettings, s, 1);
    CompletionCadence(DefaultSettings, s, 2);
    CompletionCadence(DefaultSettings, s, 3);
  }

  /** Completing a break returns to focus without counting anything. */
  lemma BreakCompletesToFocus(settings: Settings, s: TimerState)
    requires settings.Valid() && s.mode != Focus
    ensures s.Complete(settings).mode == Focus && s.Complete(settings).count == s.count
  {
  }

  /** Skipping lands in the mode completion would choose, at its full length,
      but counts nothing and stops the timer. */
  lemma SkipMatchesCompletion(settings: Settings, s: TimerState)
    requires settings.Valid()
    ensures s.Skip(settings).mode == s.Complete(settings).mode
    ensures s.Skip(settings).timeLeft == s.Complete(settings).timeLeft
    ensures s.Skip(settings).count == s.count && !s.Skip(settings).isActive
  {
  }

  /** `formatTime`: minutes and seconds, each zero-padded to two digits. */
  function FormatTime(seconds: nat): (r: string)
    ensures |r| >= 5 && r[|r| - 3] == ':'
    ensures AllDigits(r[..|r| - 3]) && AllDigits(r[|r| - 2..])
  {
    var mm := PadStart(NatToString(seconds / 60), 2, '0');
    var ss := PadStart(NatToString(seconds % 60), 2, '0');
    TwoDigitsAtMost(seconds % 60);
    PaddedValue(NatToString(seconds / 60));
    PaddedValue(NatToString(seconds % 60));
    var r := mm + ":" + ss;
    assert |ss| == 2 && |mm| >= 2;
    assert r[..|r| - 3] == mm && r[|r| - 2..] == ss && r[|r| - 3] == ':';
    r
  }

  lemma TwoDigitsAtMost(n: nat)
    requires n < 100
    ensures |NatToString(n)| <= 2
  {
    if n >= 10 {
      assert NatToString(n) == NatToString(n / 10) + [DigitChar(n % 10)];
    }
  }

  /** Reads an `MM:SS` display back: the minutes before the last colon, the
      seconds after it. */
  function ParseTime(t: string): Option<nat>
  {
    if |t| >= 3 && t[|t| - 3] == ':' && AllDigits(t[..|t| - 3]) && AllDigits(t[|t| - 2..]) then
      Some(DigitsValue(t[..|t| - 3]) * 60 + DigitsValue(t[|t| - 2..]))
    else
      None
  }

  /** The display denotes exactly the number of seconds it was made from, and its
      seconds field is below 60. */
  lemma FormatTimeRoundTrip(seconds: nat)
    ensures ParseTime(FormatTime(seconds)) == Some(seconds)
    ensures var r := FormatTime(seconds); DigitsValue(r[|r| - 2..]) < 60
  {
    var mins, secs := NatToString(seconds / 60), NatToString(seconds % 60);
    var mm, ss := PadStart(mins, 2, '0'), PadStart(secs, 2, '0');
    var r := FormatTime(seconds);
    assert |ss| == 2;
    assert r[..|r| - 3] == mm && r[|r| - 2..] == ss;
    PaddedValue(mins);
    PaddedValue(secs);
    NatToStringRoundTrip(seconds / 60);
    NatToStringRoundTrip(seconds % 60);
  }

  lemma PaddedValue(s: string)
    requires AllDigits(s) && |s| >= 1
    ensures AllDigits(PadStart(s, 2, '0')) && DigitsValue(PadStart(s, 2, '0')) == DigitsValue(s)
  {
    if |s| < 2 {
      LeadingZeros(2 - |s|, s);
    }
  }

  /** The timer's state, held in fields and updated in place by the handlers. */
  class Timer {
    const settings: Settings
    var mode: Mode
    var timeLeft: nat
    var isActive: bool
    var pomodoroCount: nat

    function State(): TimerState
      reads this
    {
      TimerState(mode, timeLeft, isActive, pomodoroCount)
    }

    predicate Valid()
      reads this
    {
      settings.Valid() && State().Inv(settings)
    }

    constructor(settings: Settings)
      requires settings.Valid()
      ensures Valid() && this.settings == settings && State() == Initial(settings)
    {
      this.settings := settings;
      mode := Focus;
      timeLeft := settings.Duration(Focus);
      isActive := false;
      pomodoroCount := 0;
    }

    /** `handleTimerComplete(getNextTimerMode())`; the notification sound and the
        toast are reported as the returned completion. */
    method HandleTimerComplete() returns (event: Completion)
      requires Valid()
      modifies this
      ensures Valid() && State() == old(State()).Complete(settings)
      ensures event == Completion(old(mode), mode)
    {
      var nextMode := NextMode(mode, pomodoroCount, settings.longBreakInterval);
      event := Completion(mode, nextMode);
      if mode == Focus {
        pomodoroCount := pomodoroCount + 1;
      }
      mode := nextMode;
      if nextMode == Focus {
        timeLeft := settings.focusTime * 60;
      } else if nextMode == ShortBreak {
        timeLeft := settings.shortBreakTime * 60;
      } else {
        timeLeft := settings.longBreakTime * 60;
      }
    }

    /** One firing of the timer effect. */
    method Tick() returns (event: Option<Completion>)
      requires Valid()
      modifies this
      ensures Valid() && State() == old(State()).Tick(settings)
      ensures event == old(State()).TickEvent(settings)
    {
      event := None;
      if isActive && timeLeft > 0 {
        timeLeft := timeLeft - 1;
      } else if isActive && timeLeft == 0 {
        var done := HandleTimerComplete();
        event := Some(done);
      }
    }

    method StartTimer()
      requires Valid()
      modifies this
      ensures Valid() && State() == old(State()).Start()
    {
      isActive := true;
    }

    method PauseTimer()
      requires Valid()
      modifies this
      ensures Valid() && State() == old(State()).Pause()
    {
      isActive := false;
    }

    method ResetTimer()
      requires Valid()
      modifies this
      ensures Valid() && State() == old(State()).Reset(settings)
    {
      isActive := false;
      if mode == Focus {
        timeLeft := settings.focusTime * 60;
      } else if mode == ShortBreak {
        timeLeft := settings.shortBreakTime * 60;
      } else {
        timeLeft := settings.longBreakTime * 60;
      }
    }

    method ChangeTimerMode(m: Mode)
      requires Valid()
      modifies this
      ensures Valid() && State() == old(State()).ChangeMode(settings, m)
    {
      isActive := false;
      mode := m;
      if m == Focus {
        timeLeft := settings.focusTime * 60;
      } else if m == ShortBreak {
        timeLeft := settings.shortBreakTime * 60;
      } else {
        timeLeft := settings.longBreakTime * 60;
      }
    }

    /** The skip-forward button. */
    method SkipSession()
      requires Valid()
      modifies this
      ensures Valid() && State() == old(State()).Skip(settings)
    {
      var nextMode := NextMode(mode, pomodoroCount, settings.longBreakInterval);
      ChangeTimerMode(nextMode);
    }
  }
}
