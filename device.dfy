/** The running timer as the source keeps it: module-level variables that the
    command dispatcher and the main loop update in place, plus the display's
    two labels and its 120 arc segments. Each method is proved against the
    value-level state machine of module Timing and the renderer of module
    Progress. */
module Device {
  import opened Config
  import opened Format
  import opened Progress
  import opened Timing

  class Pomodoro {
    var currentSession: Kind
    var sessionSeconds: int
    var timerActive: bool
    var sessionStart: int      // ms
    var sessionIndex: int
    var voiceIndex: int
    var lastSoundTime: int     // ms
    var lastSecond: int
    var sessionLabel: string
    var timerLabel: string
    /** Fill colour of each arc segment. */
    const arcSegments: array<int>
    /** The latest clock reading seen; the clock never goes back. */
    ghost var clock: int

    function State(): Timer
      reads this
    {
      Timer(currentSession, sessionSeconds, timerActive, sessionStart,
            sessionIndex, voiceIndex, lastSoundTime, lastSecond)
    }

    function Shown(): Screen
      reads this, arcSegments
    {
      Screen(sessionLabel, timerLabel, arcSegments[..])
    }

    ghost predicate Valid()
      reads this
    {
      Timing.Valid(State()) &&
      arcSegments.Length == TotalSteps &&
      sessionStart <= clock && lastSoundTime <= clock
    }

    /** Start-up (code.py:102-108, 157-176): black segments, a paused work session,
        then update_progress_arc(0, WORK). */
    constructor (bootTime: int, soundTime: int)
      requires bootTime <= soundTime
      ensures Valid() && fresh(arcSegments)
      ensures State() == Initial(bootTime, soundTime) && clock == soundTime
      ensures Shown() == Screen("", "", ArcFill(0, Work))
    {
      currentSession := Work;
      sessionSeconds := Duration(Work);
      timerActive := false;
      sessionStart := bootTime;
      sessionIndex := 0;
      voiceIndex := 0;
      lastSoundTime := soundTime;
      lastSecond := -1;
      sessionLabel, timerLabel := "", "";
      arcSegments := new int[TotalSteps](_ => Black);
      clock := soundTime;
      new;
      UpdateProgressArc(0, 1, Work);
    }

    /** update_progress_arc with percentage = done / total: every segment is rewritten. */
    method UpdateProgressArc(done: int, total: int, sessionType: Kind)
      requires total > 0 && arcSegments.Length == TotalSteps
      modifies arcSegments
      ensures arcSegments[..] == ArcFill(Steps(done, total), sessionType)
    {
      var steps := TruncDiv(done * TotalSteps, total);
      var activeColor := if sessionType == Work then ArcColorWork else ArcColorBreak;
      for i := 0 to arcSegments.Length
        invariant forall j :: 0 <= j < i ==> arcSegments[j] == (if j < steps then activeColor else Black)
      {
        arcSegments[i] := if i < steps then activeColor else Black;
      }
      assert activeColor == ArcColor(sessionType);
      assert arcSegments[..] == ArcFill(steps, sessionType);
    }

    /** simulate_voice_command, with the clock read at now. The session kind is always
        one of the three kinds, so the start-up guard of "start timer" (code.py:137-139)
        never fires and that command keeps the kind and its duration. */
    method SimulateVoiceCommand(now: int)
      requires Valid() && clock <= now
      modifies this
      ensures Valid() && clock == now
      ensures State() == Dispatch(old(State()), now)
      ensures sessionLabel == old(sessionLabel) && timerLabel == old(timerLabel)
    {
      clock := now;
      var command := VoiceCommands[voiceIndex];
      if command == StartTimer {
        timerActive := true;
        sessionStart := now;
      } else if command == PauseTimer {
        timerActive := false;
      } else if command == StartShortBreak {
        currentSession := ShortBreak;
        sessionSeconds := Duration(ShortBreak);
        timerActive := true;
        sessionStart := now;
      } else {
        currentSession := LongBreak;
        sessionSeconds := Duration(LongBreak);
        timerActive := true;
        sessionStart := now;
      }
      voiceIndex := (voiceIndex + 1) % |VoiceCommands|;
    }

    /** One pass of the main loop at clock time now with the microphone reading loud;
        returns the remaining seconds it computed. */
    method Tick(now: int, loud: bool) returns (remaining: int)
      requires Valid() && clock <= now
      modifies this, arcSegments
      ensures Valid() && clock == now
      ensures State() == Step(old(State()), now, loud)
      ensures remaining == Remaining(State(), now)
      ensures timerActive ==> remaining > 0
      ensures remaining <= sessionSeconds
      ensures Shown() == if remaining != old(lastSecond)
                         then Render(currentSession, remaining, sessionSeconds)
                         else old(Shown())
    {
      clock := now;
      Listen(now, loud);
      remaining := UpdateRemaining(now);
      RefreshDisplay(remaining);
    }

    /** code.py:183-185: a loud reading more than a second after the last accepted
        one dispatches a command and stamps last_sound_time. */
    method Listen(now: int, loud: bool)
      requires Valid() && clock == now
      modifies this
      ensures Valid() && clock == now
      ensures State() == Trigger(old(State()), now, loud)
      ensures sessionLabel == old(sessionLabel) && timerLabel == old(timerLabel)
    {
      if loud && now - lastSoundTime > 1000 {
        SimulateVoiceCommand(now);
        lastSoundTime := now;
      }
    }

    /** code.py:187-201: remaining time from the session anchor, with natural expiry
        while active; the paused branch recomputes it from the same anchor. */
    method UpdateRemaining(now: int) returns (remaining: int)
      requires Valid() && clock == now
      modifies this
      ensures Valid() && clock == now
      ensures State() == Countdown(old(State()), now)
      ensures remaining == Remaining(State(), now)
      ensures sessionLabel == old(sessionLabel) && timerLabel == old(timerLabel)
    {
      if timerActive {
        var elapsed := TruncDiv(now - sessionStart, 1000);
        remaining := sessionSeconds - elapsed;
        if remaining <= 0 {
          sessionIndex := (sessionIndex + 1) % |SessionCycle|;
          currentSession := SessionCycle[sessionIndex];
          sessionSeconds := Duration(currentSession);
          sessionStart := now;
          remaining := sessionSeconds;
        }
      } else {
        var elapsed := TruncDiv(now - sessionStart, 1000);
        remaining := sessionSeconds - elapsed;
      }
    }

    /** code.py:204-209: redraw labels and ring only when the integer second changed. */
    method RefreshDisplay(remaining: int)
      requires Valid()
      modifies this`sessionLabel, this`timerLabel, this`lastSecond, arcSegments
      ensures Valid()
      ensures lastSecond == remaining
      ensures Shown() == if remaining != old(lastSecond)
                         then Render(currentSession, remaining, sessionSeconds)
                         else old(Shown())
    {
      var currentSecond := remaining;
      if currentSecond != lastSecond {
        sessionLabel := Label(currentSession);
        timerLabel := FormatTime(remaining);
        UpdateProgressArc(sessionSeconds - remaining, sessionSeconds, currentSession);
        lastSecond := currentSecond;
      }
    }
  }
}
