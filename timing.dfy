/** The session state machine as values: the command dispatcher
    simulate_voice_command (code.py:129-155), the debounce gate
    (code.py:183-185), the per-tick countdown with natural expiry
    (code.py:187-201) and the redraw gate (code.py:204-209). Time is an
    integer count of milliseconds read from a monotonic clock. */
module Timing {
  import opened Config

  /** The module-level variables of the timer loop, apart from the display. */
  datatype Timer = Timer(
    kind: Kind,          // current_session
    seconds: int,        // session_seconds
    active: bool,        // timer_active
    start: int,          // session_start, in ms
    cycleIndex: int,     // session_index
    voiceIndex: int,     // voice_index
    lastSound: int,      // last_sound_time, in ms
    lastSecond: int)     // last_second

  /** Both cursors lie inside their lists and the duration belongs to the kind. */
  predicate Valid(t: Timer) {
    0 <= t.cycleIndex < |SessionCycle| &&
    0 <= t.voiceIndex < |VoiceCommands| &&
    t.seconds == Duration(t.kind)
  }

  /** State after start-up (code.py:157-176): a paused work session. */
  function Initial(bootTime: int, soundTime: int): (t: Timer)
    ensures Valid(t) && !t.active && t.kind == Work && t.cycleIndex == 0 && t.voiceIndex == 0
  {
    Timer(Work, Duration(Work), false, bootTime, 0, 0, soundTime, -1)
  }

  /** The command the dispatcher will run next: cursor position i names the i-th of
      the four commands, and each command sits at exactly one position. */
  function NextCommand(t: Timer): (c: Command)
    requires Valid(t)
    ensures c == StartTimer <==> t.voiceIndex == 0
    ensures c == PauseTimer <==> t.voiceIndex == 1
    ensures c == StartShortBreak <==> t.voiceIndex == 2
    ensures c == StartLongBreak <==> t.voiceIndex == 3
  {
    VoiceCommands[t.voiceIndex]
  }

  /** simulate_voice_command at clock time now. The kind is always one of the three
      session kinds, so the start-up guard of "start timer" never replaces it. */
  function Dispatch(t: Timer, now: int): (r: Timer)
    requires Valid(t)
    ensures Valid(r)
    ensures r.voiceIndex == (t.voiceIndex + 1) % |VoiceCommands|
    ensures r.cycleIndex == t.cycleIndex && r.lastSound == t.lastSound && r.lastSecond == t.lastSecond
    ensures r.active <==> NextCommand(t) != PauseTimer
  {
    var u := match VoiceCommands[t.voiceIndex]
      case StartTimer => t.(active := true, start := now)
      case PauseTimer => t.(active := false)
      case StartShortBreak => t.(kind := ShortBreak, seconds := Duration(ShortBreak), active := true, start := now)
      case StartLongBreak => t.(kind := LongBreak, seconds := Duration(LongBreak), active := true, start := now);
    u.(voiceIndex := (t.voiceIndex + 1) % |VoiceCommands|)
  }

  /** The debounce condition: loud, and more than one second since the last accepted trigger. */
  function Fires(t: Timer, now: int, loud: bool): (b: bool)
    ensures !loud ==> !b
    ensures now <= t.lastSound + 1000 ==> !b
    ensures loud && now >= t.lastSound + 1001 ==> b
  {
    loud && now - t.lastSound > 1000
  }

  /** code.py:183-185: dispatch and stamp last_sound_time, or leave everything alone. */
  function Trigger(t: Timer, now: int, loud: bool): (r: Timer)
    requires Valid(t)
    ensures Valid(r)
    ensures r.lastSound == (if Fires(t, now, loud) then now else t.lastSound)
    ensures Fires(t, now, loud) ==> r == Dispatch(t, now).(lastSound := now)
    ensures r.voiceIndex == (if Fires(t, now, loud) then (t.voiceIndex + 1) % |VoiceCommands| else t.voiceIndex)
    ensures !Fires(t, now, loud) ==> r == t
  {
    if Fires(t, now, loud) then Dispatch(t, now).(lastSound := now) else t
  }

  /** remaining = session_seconds - int(now - session_start), the clock in ms. */
  function Remaining(t: Timer, now: int): (rem: int)
    ensures t.start <= now ==> rem <= t.seconds
  {
    t.seconds - TruncDiv(now - t.start, 1000)
  }

  /** Natural expiry: step the cycle and load the next kind and its duration. */
  function Rollover(t: Timer, now: int): (r: Timer)
    requires Valid(t)
    ensures Valid(r) && r.active == t.active
    ensures r.cycleIndex == (t.cycleIndex + 1) % |SessionCycle|
    ensures r.kind == SessionCycle[r.cycleIndex] && r.seconds == Duration(r.kind)
    ensures Remaining(r, now) == r.seconds > 0
  {
    var i := (t.cycleIndex + 1) % |SessionCycle|;
    var k := SessionCycle[i];
    t.(cycleIndex := i, kind := k, seconds := Duration(k), start := now)
  }

  /** code.py:187-201: an active session whose time is up rolls over; a paused one never does. */
  function Countdown(t: Timer, now: int): (r: Timer)
    requires Valid(t)
    ensures Valid(r)
    ensures r.active ==> Remaining(r, now) > 0
    ensures r.voiceIndex == t.voiceIndex && r.lastSound == t.lastSound && r.lastSecond == t.lastSecond
  {
    if t.active && Remaining(t, now) <= 0 then Rollover(t, now) else t
  }

  /** Whether this tick redraws the display: the integer second differs from last_second. */
  function Redraws(t: Timer, now: int, loud: bool): (b: bool)
    requires Valid(t)
    ensures b <==> Step(t, now, loud).lastSecond != t.lastSecond
    ensures !b ==> Step(t, now, loud) == Countdown(Trigger(t, now, loud), now)
  {
    var u := Countdown(Trigger(t, now, loud), now);
    Remaining(u, now) != u.lastSecond
  }

  /** One pass of the main loop (code.py:179-209), display aside. */
  function Step(t: Timer, now: int, loud: bool): (r: Timer)
    requires Valid(t)
    ensures Valid(r)
    ensures r.active ==> Remaining(r, now) > 0
    ensures r.lastSecond == Remaining(r, now)
    ensures r.lastSound == (if Fires(t, now, loud) then now else t.lastSound)
    ensures t.start <= now ==> Remaining(r, now) <= r.seconds
    ensures r == Countdown(Trigger(t, now, loud), now).(lastSecond := Remaining(r, now))
  {
    var u := Countdown(Trigger(t, now, loud), now);
    var rem := Remaining(u, now);
    if rem != u.lastSecond then u.(lastSecond := rem) else u
  }

  // ---------------------------------------------------------------------------
  // The commands, one by one

  /** "start timer" keeps the session kind and its duration and only restarts the clock. */
  lemma StartKeepsSession(t: Timer, now: int)
    requires Valid(t) && NextCommand(t) == StartTimer
    ensures Dispatch(t, now) == t.(active := true, start := now, voiceIndex := t.voiceIndex + 1)
  {
  }

  /** "pause timer" clears the active flag and changes nothing else but the cursor. */
  lemma PauseChangesOnlyActive(t: Timer, now: int)
    requires Valid(t) && NextCommand(t) == PauseTimer
    ensures Dispatch(t, now) == t.(active := false, voiceIndex := t.voiceIndex + 1)
  {
  }

  /** The break commands load a break of the requested kind and leave session_index alone. */
  lemma ManualBreakKeepsCycle(t: Timer, now: int)
    requires Valid(t) && NextCommand(t) in {StartShortBreak, StartLongBreak}
    ensures var r := Dispatch(t, now);
      r.kind == (if NextCommand(t) == StartShortBreak then ShortBreak else LongBreak) &&
      r.seconds == Duration(r.kind) && r.active && r.start == now &&
      r.cycleIndex == t.cycleIndex
  {
  }

  /** After a manual break runs out, natural expiry resumes from the entry after the
      cycle position held before the break, not from the break's place in the cycle. */
  lemma BreakOverrideResumesCycle(t: Timer, now: int, later: int)
    requires Valid(t) && NextCommand(t) in {StartShortBreak, StartLongBreak}
    requires later - now >= Duration(Dispatch(t, now).kind) * 1000
    ensures Countdown(Dispatch(t, now), later).kind == SessionCycle[(t.cycleIndex + 1) % |SessionCycle|]
    ensures Countdown(Dispatch(t, now), later).cycleIndex == (t.cycleIndex + 1) % |SessionCycle|
  {
    var u := Dispatch(t, now);
    TruncDivMonotone(u.seconds * 1000, later - now, 1000);
    assert TruncDiv(u.seconds * 1000, 1000) == u.seconds;
    assert Remaining(u, later) <= 0;
  }

  /** Four dispatches run the four commands once each, in list order from the cursor,
      and bring the cursor back. */
  lemma CommandCursorWraps(t: Timer, a: int, b: int, c: int, d: int)
    requires Valid(t)
    ensures var t1 := Dispatch(t, a); var t2 := Dispatch(t1, b); var t3 := Dispatch(t2, c);
      NextCommand(t1) == VoiceCommands[(t.voiceIndex + 1) % 4] &&
      NextCommand(t2) == VoiceCommands[(t.voiceIndex + 2) % 4] &&
      NextCommand(t3) == VoiceCommands[(t.voiceIndex + 3) % 4] &&
      Dispatch(t3, d).voiceIndex == t.voiceIndex
  {
  }

  /** Two loud readings more than one second apart run two commands at consecutive
      cursor positions; closer together, only the first one runs a command. */
  lemma TwoLoudReadings(t: Timer, now1: int, now2: int)
    requires Valid(t) && now1 - t.lastSound > 1000
    ensures var t1 := Step(t, now1, true); var t2 := Step(t1, now2, true);
      t1.voiceIndex == (t.voiceIndex + 1) % |VoiceCommands| &&
      (now2 - now1 > 1000 ==> t2.voiceIndex == (t.voiceIndex + 2) % |VoiceCommands|) &&
      (now2 - now1 <= 1000 ==> t2.voiceIndex == (t.voiceIndex + 1) % |VoiceCommands|)
  {
  }

  // ---------------------------------------------------------------------------
  // Countdown

  /** Natural expiry happens exactly when an active session has no time left, and it
      rolls the cycle and starts the next session full. */
  lemma ExpiryRollsCycle(t: Timer, now: int)
    requires Valid(t) && t.active && Remaining(t, now) <= 0
    ensures var r := Countdown(t, now);
      r.cycleIndex == (t.cycleIndex + 1) % |SessionCycle| &&
      r.kind == SessionCycle[r.cycleIndex] && r.seconds == Duration(r.kind) &&
      r.active && r.start == now && Remaining(r, now) == r.seconds
  {
  }

  /** An active session with time left is not touched by the countdown. */
  lemma NoExpiryBeforeTime(t: Timer, now: int)
    requires Valid(t) && Remaining(t, now) > 0
    ensures Countdown(t, now) == t
  {
  }

  /** While paused nothing rolls over, yet the remaining time keeps being measured from
      the unshifted session_start, so it drops by at least one for every further second. */
  lemma PausedDrift(t: Timer, now1: int, now2: int)
    requires Valid(t) && !t.active && t.start <= now1 && now1 + 1000 <= now2
    ensures Countdown(t, now2) == t
    ensures Remaining(t, now2) < Remaining(t, now1)
  {
    var e1, e2 := TruncDiv(now1 - t.start, 1000), TruncDiv(now2 - t.start, 1000);
    assert e1 * 1000 <= now1 - t.start;
    assert e2 * 1000 + 1000 > now2 - t.start;
  }

  /** The drift reaches negative values: a session paused for longer than its length
      shows a negative remaining time. */
  lemma PausedRemainingGoesNegative(t: Timer)
    requires Valid(t) && !t.active
    ensures Remaining(t, t.start + (t.seconds + 1) * 1000) == -1
  {
    assert TruncDiv((t.seconds + 1) * 1000, 1000) == t.seconds + 1;
  }

  // ---------------------------------------------------------------------------
  // Debounce and redraw over whole ticks

  datatype Sample = Sample(now: int, loud: bool)

  /** The clock times at which a run of ticks accepted a command. */
  function Fired(t: Timer, samples: seq<Sample>): seq<int>
    requires Valid(t)
    decreases |samples|
  {
    if samples == [] then []
    else
      var s := samples[0];
      (if Fires(t, s.now, s.loud) then [s.now] else []) + Fired(Step(t, s.now, s.loud), samples[1..])
  }

  /** Accepted commands are more than one second apart, and the first is more than one
      second after the last trigger before the run. */
  lemma {:induction false} DebounceSpacing(t: Timer, samples: seq<Sample>)
    requires Valid(t)
    ensures var f := Fired(t, samples);
      (|f| > 0 ==> f[0] - t.lastSound > 1000) &&
      forall j :: 0 <= j < |f| - 1 ==> f[j + 1] - f[j] > 1000
    decreases |samples|
  {
    if samples != [] {
      var s := samples[0];
      var t' := Step(t, s.now, s.loud);
      DebounceSpacing(t', samples[1..]);
      var rest := Fired(t', samples[1..]);
      if Fires(t, s.now, s.loud) {
        assert Fired(t, samples) == [s.now] + rest;
      } else {
        assert Fired(t, samples) == rest;
      }
    }
  }

  /** Once a tick has drawn its second, another tick at the same instant with no sound
      draws nothing: repeated identical seconds never redraw. */
  lemma NoRedundantRedraw(t: Timer, now: int, loud: bool)
    requires Valid(t)
    ensures !Redraws(Step(t, now, loud), now, false)
  {
    var r := Step(t, now, loud);
    assert Trigger(r, now, false) == r;
    assert Countdown(r, now) == r;
  }

  // ---------------------------------------------------------------------------
  // Scenarios

  /** From start-up, a "start timer" command at time now shows the full 1500 seconds. */
  lemma StartFromBoot(bootTime: int, now: int)
    requires bootTime <= now
    ensures var r := Dispatch(Initial(bootTime, bootTime), now);
      r.active && r.kind == Work && Remaining(r, now) == 1500
  {
  }

  /** An active work session at cycle position 0 expires after exactly 1500 s into the
      short break at position 1; one millisecond earlier one second is left. */
  lemma WorkExpiresToShortBreak(t: Timer)
    requires Valid(t) && t.active && t.kind == Work && t.cycleIndex == 0
    ensures Countdown(t, t.start + 1499999) == t && Remaining(t, t.start + 1499999) == 1
    ensures Countdown(t, t.start + 1500000).kind == ShortBreak
    ensures Countdown(t, t.start + 1500000).cycleIndex == 1
  {
  }
}
